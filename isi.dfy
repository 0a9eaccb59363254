// The ISI frame decoder and its resource table (packet-isi.c): the 8-byte
// PhoNet/ISI header, the payload length and its clamp, the payload slice,
// the dispatch on the resource byte, and the USB prefix strip.
module Isi {
  import opened Wire
  import Sim
  import Network
  import Ss
  import Gss
  import Sms
  import Mtc
  import NameService
  import RadioSettings
  import PhoneInfo
  import Call
  import Light
  import Gpds
  import Pipe
  import Selftest
  import CommMgr

  /** The resource decoders a dissector_add call can bind. */
  datatype Decoder =
    | SimDecoder | NetworkDecoder | SsDecoder | GssDecoder | SmsDecoder | MtcDecoder | NameServiceDecoder
    | RadioSettingsDecoder | PhoneInfoDecoder | CallDecoder | LightDecoder | GpdsDecoder | PipeDecoder
    | SelftestDecoder | CommMgrDecoder

  /** The resource id each decoder's handoff function registers it under. */
  function Id(d: Decoder): byte
  {
    match d
    case SimDecoder => Sim.ResourceId
    case NetworkDecoder => Network.ResourceId
    case SsDecoder => Ss.ResourceId
    case GssDecoder => Gss.ResourceId
    case SmsDecoder => Sms.ResourceId
    case MtcDecoder => Mtc.ResourceId
    case NameServiceDecoder => NameService.ResourceId
    case RadioSettingsDecoder => RadioSettings.ResourceId
    case PhoneInfoDecoder => PhoneInfo.ResourceId
    case CallDecoder => Call.ResourceId
    case LightDecoder => Light.ResourceId
    case GpdsDecoder => Gpds.ResourceId
    case PipeDecoder => Pipe.ResourceId
    case SelftestDecoder => Selftest.ResourceId
    case CommMgrDecoder => CommMgr.ResourceId
  }

  /** No two decoders claim the same resource id. */
  lemma IdsDistinct(a: Decoder, b: Decoder)
    requires a != b
    ensures Id(a) != Id(b)
  {
  }

  /**
   * The decoders whose handoff proto_reg_handoff_isi calls, in call order.
   * The SIM authentication and GPS handoffs it also calls are not part of
   * this model; GPDS, Pipe, Selftest and CommMgr are never handed off.
   */
  const Handed: seq<Decoder> :=
    [SimDecoder, NetworkDecoder, SsDecoder, GssDecoder, SmsDecoder, MtcDecoder, NameServiceDecoder,
     RadioSettingsDecoder, PhoneInfoDecoder, CallDecoder, LightDecoder]

  /** The bindings the handoffs make, in call order: each handed-off decoder under its own id. */
  function HandedTable(): map<byte, Decoder>
  {
    map[Id(SimDecoder) := SimDecoder, Id(NetworkDecoder) := NetworkDecoder, Id(SsDecoder) := SsDecoder,
        Id(GssDecoder) := GssDecoder, Id(SmsDecoder) := SmsDecoder, Id(MtcDecoder) := MtcDecoder,
        Id(NameServiceDecoder) := NameServiceDecoder, Id(RadioSettingsDecoder) := RadioSettingsDecoder,
        Id(PhoneInfoDecoder) := PhoneInfoDecoder, Id(CallDecoder) := CallDecoder, Id(LightDecoder) := LightDecoder]
  }

  /** The table binds every decoder of the handoff list under its id, and nothing else. */
  lemma HandedFromCalls()
    ensures forall d :: d in Handed ==> Id(d) in HandedTable() && HandedTable()[Id(d)] == d
    ensures forall d :: d in HandedTable().Values ==> d in Handed
  {
  }

  /** Registering one more binding after a merge is the same as merging the extended bindings. */
  lemma OverrideStep(m: map<byte, Decoder>, n: map<byte, Decoder>, k: byte, v: Decoder)
    ensures (m + n)[k := v] == m + n[k := v]
  {
  }

  /** Running the handoffs again leaves the table as it was after the first run. */
  lemma HandoffIdempotent(table: map<byte, Decoder>)
    ensures table + HandedTable() + HandedTable() == table + HandedTable()
  {
  }

  /** The handoffs bind exactly the eleven ids of the handed-off decoders. */
  lemma HandedIds()
    ensures HandedTable().Keys == {0x09, 0x0A, 0x06, 0x32, 0x02, 0x15, 0xDB, 0xB4, 0x1B, 0x01, 0x3A}
  {
  }

  /** Every binding the handoffs make is the decoder that claims that id. */
  lemma HandedBindings()
    ensures forall k :: k in HandedTable() ==> Id(HandedTable()[k]) == k
  {
    HandedIds();
    forall k | k in HandedTable()
      ensures Id(HandedTable()[k]) == k
    {
    }
  }

  /** The GPDS, Pipe, Selftest and CommMgr ids stay unbound. */
  lemma UnboundIds()
    ensures Id(GpdsDecoder) !in HandedTable() && Id(PipeDecoder) !in HandedTable()
    ensures Id(SelftestDecoder) !in HandedTable() && Id(CommMgrDecoder) !in HandedTable()
  {
  }

  /** The "isi.resource" dissector table: resource id to decoder. */
  class Registry {
    var table: map<byte, Decoder>

    /** register_dissector_table creates the table empty. */
    constructor ()
      ensures table == map[]
    {
      table := map[];
    }

    /** dissector_add: binds the decoder's resource id to it, replacing any earlier binding. */
    method Add(d: Decoder)
      modifies this
      ensures table == old(table)[Id(d) := d]
    {
      table := table[Id(d) := d];
    }

    /**
     * proto_reg_handoff_isi: calls the handoff of each resource decoder.
     * Each handoff guards its dissector_add with an `initialized` flag that
     * is never set, so every call registers again.
     */
    method Handoff()
      modifies this
      ensures table == old(table) + HandedTable()
    {
      ghost var bound: map<byte, Decoder> := map[];
      assert table == old(table) + bound;
      Add(SimDecoder);
      OverrideStep(old(table), bound, Id(SimDecoder), SimDecoder);
      bound := bound[Id(SimDecoder) := SimDecoder];
      Add(NetworkDecoder);
      OverrideStep(old(table), bound, Id(NetworkDecoder), NetworkDecoder);
      bound := bound[Id(NetworkDecoder) := NetworkDecoder];
      Add(SsDecoder);
      OverrideStep(old(table), bound, Id(SsDecoder), SsDecoder);
      bound := bound[Id(SsDecoder) := SsDecoder];
      Add(GssDecoder);
      OverrideStep(old(table), bound, Id(GssDecoder), GssDecoder);
      bound := bound[Id(GssDecoder) := GssDecoder];
      Add(SmsDecoder);
      OverrideStep(old(table), bound, Id(SmsDecoder), SmsDecoder);
      bound := bound[Id(SmsDecoder) := SmsDecoder];
      Add(MtcDecoder);
      OverrideStep(old(table), bound, Id(MtcDecoder), MtcDecoder);
      bound := bound[Id(MtcDecoder) := MtcDecoder];
      Add(NameServiceDecoder);
      OverrideStep(old(table), bound, Id(NameServiceDecoder), NameServiceDecoder);
      bound := bound[Id(NameServiceDecoder) := NameServiceDecoder];
      Add(RadioSettingsDecoder);
      OverrideStep(old(table), bound, Id(RadioSettingsDecoder), RadioSettingsDecoder);
      bound := bound[Id(RadioSettingsDecoder) := RadioSettingsDecoder];
      Add(PhoneInfoDecoder);
      OverrideStep(old(table), bound, Id(PhoneInfoDecoder), PhoneInfoDecoder);
      bound := bound[Id(PhoneInfoDecoder) := PhoneInfoDecoder];
      Add(CallDecoder);
      OverrideStep(old(table), bound, Id(CallDecoder), CallDecoder);
      bound := bound[Id(CallDecoder) := CallDecoder];
      Add(LightDecoder);
      OverrideStep(old(table), bound, Id(LightDecoder), LightDecoder);
      bound := bound[Id(LightDecoder) := LightDecoder];
      assert bound == HandedTable();
    }
  }

  /** What a bound decoder appends for a payload; the frame decoder always hands it a tree. */
  function DecoderEvents(d: Decoder, payload: seq<byte>, matchesId: u32): seq<Event>
  {
    match d
    case SimDecoder => Sim.Events(payload, true)
    case NetworkDecoder => Network.Events(payload, true)
    case SsDecoder => Ss.Events(payload, true)
    case GssDecoder => Gss.Events(payload, true)
    case SmsDecoder => Sms.Events(payload, true)
    case MtcDecoder => Mtc.Events(payload, true)
    case NameServiceDecoder => NameService.Events(payload, true, matchesId)
    case RadioSettingsDecoder => RadioSettings.Events(payload, true)
    case PhoneInfoDecoder => PhoneInfo.Events(payload, true)
    case CallDecoder => Call.Events(payload, true)
    case LightDecoder => Light.Events(payload, true)
    case GpdsDecoder => Gpds.Events(payload, true)
    case PipeDecoder => Pipe.Events(payload, true)
    case SelftestDecoder => Selftest.Events(payload, true)
    case CommMgrDecoder => CommMgr.Events(payload, true)
  }

  method DissectWith(d: Decoder, payload: seq<byte>, matchesId: u32, out: Output)
    modifies out
    ensures out.events == old(out.events) + DecoderEvents(d, payload, matchesId)
  {
    match d
    case SimDecoder => Sim.Dissect(payload, true, out);
    case NetworkDecoder => Network.Dissect(payload, true, out);
    case SsDecoder => Ss.Dissect(payload, true, out);
    case GssDecoder => Gss.Dissect(payload, true, out);
    case SmsDecoder => Sms.Dissect(payload, true, out);
    case MtcDecoder => Mtc.Dissect(payload, true, out);
    case NameServiceDecoder => NameService.Dissect(payload, true, matchesId, out);
    case RadioSettingsDecoder => RadioSettings.Dissect(payload, true, out);
    case PhoneInfoDecoder => PhoneInfo.Dissect(payload, true, out);
    case CallDecoder => Call.Dissect(payload, true, out);
    case LightDecoder => Light.Dissect(payload, true, out);
    case GpdsDecoder => Gpds.Dissect(payload, true, out);
    case PipeDecoder => Pipe.Dissect(payload, true, out);
    case SelftestDecoder => Selftest.Dissect(payload, true, out);
    case CommMgrDecoder => CommMgr.Dissect(payload, true, out);
  }

  /** dissector_try_port, falling back to the raw data dissector when no decoder is bound. */
  function Dispatch(table: map<byte, Decoder>, resource: byte, payload: seq<byte>, matchesId: u32): (r: seq<Event>)
    ensures resource !in table ==> r == [RawData(|payload|)]
    ensures resource in table ==> r == DecoderEvents(table[resource], payload, matchesId)
  {
    if resource in table then DecoderEvents(table[resource], payload, matchesId) else [RawData(|payload|)]
  }

  /** The seven header items, in the order dissect_isi adds them. */
  function HeaderItems(): seq<Event>
  {
    [Field("isi_rdev", 0, 1), Field("isi_sdev", 1, 1), Field("isi_res", 2, 1), Field("isi_len", 3, 2),
     Field("isi_robj", 5, 1), Field("isi_sobj", 6, 1), Field("isi_id", 7, 1)]
  }

  /** The big-endian 16-bit length at offset 3. */
  function DeclaredValue(frame: seq<byte>): (v: nat)
    requires |frame| >= 5
    ensures v < 0x1_0000
  {
    frame[3] as int * 256 + frame[4] as int
  }

  /** The payload length before the clamp: the declared value minus 3, kept in a guint16. */
  function DeclaredLength(frame: seq<byte>): (l: nat)
    requires |frame| >= 5
    ensures l < 0x1_0000
    ensures DeclaredValue(frame) >= 3 ==> l == DeclaredValue(frame) - 3
    ensures DeclaredValue(frame) < 3 ==> l == DeclaredValue(frame) + 0x1_0000 - 3
  {
    (DeclaredValue(frame) - 3) % 0x1_0000
  }

  /** tvb->length - 8 in unsigned arithmetic: frames shorter than 8 bytes wrap to a huge value. */
  function Available(frame: seq<byte>): (a: u32)
    ensures |frame| >= 8 && |frame| - 8 < 0x1_0000_0000 ==> a == |frame| - 8
    ensures |frame| < 8 ==> a >= 0x1_0000_0000 - 8
  {
    (|frame| - 8) % 0x1_0000_0000
  }

  /** The payload length after the clamp. */
  function ClampedLength(frame: seq<byte>): nat
    requires |frame| >= 5
  {
    if Available(frame) < DeclaredLength(frame) then Available(frame) else DeclaredLength(frame)
  }

  /** The decimal digits of n, as %d prints a non-negative value. */
  function Decimal(n: nat): (s: string)
    ensures |s| >= 1 && forall i :: 0 <= i < |s| ==> '0' <= s[i] <= '9'
    decreases n
  {
    if n < 10 then [('0' as int + n) as char] else Decimal(n / 10) + [('0' as int + n % 10) as char]
  }

  /** The value a string of decimal digits denotes: the reference Decimal is checked against. */
  function DecimalValue(s: string): nat
    requires forall i :: 0 <= i < |s| ==> '0' <= s[i] <= '9'
    decreases |s|
  {
    if s == [] then 0 else 10 * DecimalValue(s[..|s| - 1]) + (s[|s| - 1] as int - '0' as int)
  }

  /** Decimal prints exactly the number it was given. */
  lemma {:induction false} DecimalRoundTrip(n: nat)
    ensures DecimalValue(Decimal(n)) == n
    decreases n
  {
    var s := Decimal(n);
    if n >= 10 {
      DecimalRoundTrip(n / 10);
      assert s[..|s| - 1] == Decimal(n / 10);
    }
  }

  /** The clamp's warning: present exactly when the declared length exceeds the bytes available. */
  function LengthCheck(frame: seq<byte>): seq<Event>
    requires |frame| >= 5
  {
    if Available(frame) < DeclaredLength(frame) then
      [Warning("Broken Length (" + Decimal(DeclaredLength(frame)) + " > " + Decimal(Available(frame)) + ")")]
    else []
  }

  /** The payload: tvb_new_subset(tvb, 8, length, length) with the clamped length. */
  function Content(frame: seq<byte>): seq<byte>
    requires |frame| >= 8
  {
    frame[8 .. 8 + ClampedLength(frame)]
  }

  /** The payload dissect_isi hands on, with the resource byte it dispatches on. */
  datatype Handover = Handover(resource: byte, payload: seq<byte>)

  /**
   * What dissect_isi appends before it dispatches: the protocol column, the
   * cleared summary and, with a tree, the header items, the clamp's warning,
   * or the read that fails on a short frame.
   */
  function FrameHead(frame: seq<byte>, hasTree: bool): (r: seq<Event>)
    ensures |r| >= 2 && r[0] == Protocol("ISI") && r[1] == ClearSummary
    ensures !hasTree ==> r == [Protocol("ISI"), ClearSummary]
  {
    [Protocol("ISI"), ClearSummary]
    + if !hasTree then []
      else if |frame| < 5 then HeaderItems() + [Truncated(3)]
      else if |frame| < 8 then HeaderItems() + LengthCheck(frame) + [Truncated(8)]
      else HeaderItems() + LengthCheck(frame)
  }

  /** The handover, when dissect_isi gets as far as slicing the payload. */
  function Sliced(frame: seq<byte>, hasTree: bool): (h: Option<Handover>)
    ensures h.Some? <==> hasTree && |frame| >= 8
  {
    if hasTree && |frame| >= 8 then Some(Handover(frame[2], Content(frame))) else None
  }

  /** What dissect_isi appends for a frame, given the resource table. */
  function FrameEvents(frame: seq<byte>, hasTree: bool, table: map<byte, Decoder>, matchesId: u32): (r: seq<Event>)
  {
    FrameHead(frame, hasTree)
    + match Sliced(frame, hasTree)
      case None => []
      case Some(h) => Dispatch(table, h.resource, h.payload, matchesId)
  }

  /** The part of dissect_isi before the dispatch. */
  method Head(frame: seq<byte>, hasTree: bool, out: Output) returns (h: Option<Handover>)
    modifies out
    ensures out.events == old(out.events) + FrameHead(frame, hasTree)
    ensures h == Sliced(frame, hasTree)
  {
    var start := [Protocol("ISI"), ClearSummary];
    out.Append(start);
    if !hasTree {
      return None;
    }
    var header := HeaderItems();
    out.Append(header);
    if |frame| < 5 {
      out.Add(Truncated(3));
      AppendAssoc(old(out.events) + start, header, [Truncated(3)]);
      AppendAssoc(old(out.events), start, header + [Truncated(3)]);
      return None;
    }
    var length := DeclaredLength(frame);
    var resource := frame[2];
    var available := Available(frame);
    var check: seq<Event> := [];
    if available < length {
      check := [Warning("Broken Length (" + Decimal(length) + " > " + Decimal(available) + ")")];
      out.Add(check[0]);
      length := available;
    }
    assert check == LengthCheck(frame) && length == ClampedLength(frame);
    if |frame| < 8 {
      out.Add(Truncated(8));
      AppendAssoc(header, check, [Truncated(8)]);
      AppendAssoc(old(out.events) + start, header, check + [Truncated(8)]);
      AppendAssoc(old(out.events) + start + header, check, [Truncated(8)]);
      AppendAssoc(old(out.events), start, header + check + [Truncated(8)]);
      return None;
    }
    AppendAssoc(old(out.events) + start, header, check);
    AppendAssoc(old(out.events), start, header + check);
    var content := frame[8 .. 8 + length];
    return Some(Handover(resource, content));
  }

  /** dissect_isi over the registry's current table. */
  method DissectFrame(frame: seq<byte>, hasTree: bool, registry: Registry, matchesId: u32, out: Output)
    modifies out
    ensures out.events == old(out.events) + FrameEvents(frame, hasTree, registry.table, matchesId)
  {
    var h := Head(frame, hasTree, out);
    if h.Some? {
      var before := out.events;
      var resource := h.value.resource;
      var content := h.value.payload;
      if resource in registry.table {
        DissectWith(registry.table[resource], content, matchesId, out);
      } else {
        out.Add(RawData(|content|));
      }
      AppendAssoc(old(out.events), FrameHead(frame, hasTree), Dispatch(registry.table, resource, content, matchesId));
    }
  }

  /** Every frame gets the protocol column and a cleared summary; without a tree nothing else happens. */
  lemma NoTree(frame: seq<byte>)
    ensures FrameHead(frame, false) == [Protocol("ISI"), ClearSummary] && Sliced(frame, false) == None
    ensures FrameHead(frame, true)[..2] == [Protocol("ISI"), ClearSummary]
  {
  }

  /** With a tree, the seven header items follow in order, before anything is read. */
  lemma HeaderOrder(frame: seq<byte>)
    ensures var r := FrameHead(frame, true);
      |r| >= 9 && r[2..9] == HeaderItems()
      && r[2] == Field("isi_rdev", 0, 1) && r[5] == Field("isi_len", 3, 2) && r[8] == Field("isi_id", 7, 1)
  {
    var r := FrameHead(frame, true);
    var rest := if |frame| < 5 then [Truncated(3)] else if |frame| < 8 then LengthCheck(frame) + [Truncated(8)]
      else LengthCheck(frame);
    assert r == [Protocol("ISI"), ClearSummary] + HeaderItems() + rest;
    assert r[2..9] == HeaderItems();
  }

  /** A declared value below 3 wraps: 0, 1 and 2 give lengths 65533, 65534 and 65535. */
  lemma LengthWraps(frame: seq<byte>)
    requires |frame| >= 5 && frame[3] == 0 && frame[4] < 3
    ensures DeclaredLength(frame) == 65533 + frame[4] as int
  {
  }

  /**
   * The clamp: exactly one "Broken Length" warning when the declared length
   * exceeds the bytes after the header, and then the length becomes that
   * count; otherwise no warning and the declared length is kept.
   */
  lemma Clamp(frame: seq<byte>)
    requires 8 <= |frame| < 0x1_0000_0000
    ensures DeclaredLength(frame) > |frame| - 8 ==>
      Warnings(LengthCheck(frame)) == 1 && ClampedLength(frame) == |frame| - 8
      && LengthCheck(frame) == [Warning("Broken Length (" + Decimal(DeclaredLength(frame)) + " > " + Decimal(|frame| - 8) + ")")]
    ensures DeclaredLength(frame) <= |frame| - 8 ==>
      LengthCheck(frame) == [] && ClampedLength(frame) == DeclaredLength(frame)
    ensures 8 + ClampedLength(frame) <= |frame|
  {
  }

  /** Frames of 5 to 7 bytes never warn (the unsigned count is huge) and stop at the payload slice. */
  lemma ShortFrame(frame: seq<byte>)
    requires 5 <= |frame| < 8
    ensures FrameHead(frame, true) == [Protocol("ISI"), ClearSummary] + HeaderItems() + [Truncated(8)]
    ensures Sliced(frame, true) == None
  {
    assert LengthCheck(frame) == [];
  }

  /** The payload handed on is bytes [8, 8 + length) of the frame, with the clamped length. */
  lemma PayloadSlice(frame: seq<byte>)
    requires 8 <= |frame| < 0x1_0000_0000
    ensures Sliced(frame, true) == Some(Handover(frame[2], Content(frame)))
    ensures |Content(frame)| == (if DeclaredLength(frame) <= |frame| - 8 then DeclaredLength(frame) else |frame| - 8)
    ensures Content(frame) == frame[8..][..|Content(frame)|]
  {
  }

  /**
   * The frame's last events come from the decoder bound to the resource
   * byte, given the payload, or from the raw data dissector when none is
   * bound: a frame is never rejected.
   */
  lemma Dispatched(frame: seq<byte>, table: map<byte, Decoder>, matchesId: u32)
    requires |frame| >= 8
    ensures frame[2] in table ==>
      FrameEvents(frame, true, table, matchesId)
      == FrameHead(frame, true) + DecoderEvents(table[frame[2]], Content(frame), matchesId)
    ensures frame[2] !in table ==>
      FrameEvents(frame, true, table, matchesId) == FrameHead(frame, true) + [RawData(|Content(frame)|)]
  {
  }

  /** After the handoffs, GPDS, Pipe, Selftest and CommMgr payloads reach the raw data dissector. */
  lemma UnboundResources(resource: byte, payload: seq<byte>, matchesId: u32)
    requires resource in {0x31, 0xD9, 0x35, 0x10}
    ensures Dispatch(HandedTable(), resource, payload, matchesId) == [RawData(|payload|)]
  {
    UnboundIds();
  }

  /** What dissect_usb_isi reports: whether it took the buffer, and what it appended. */
  datatype UsbResult = UsbResult(accepted: bool, events: seq<Event>)

  /** dissect_usb_isi: a buffer starting with 0x1B is decoded from offset 1; any other is refused. */
  function UsbEvents(buf: seq<byte>, hasTree: bool, table: map<byte, Decoder>, matchesId: u32): (r: UsbResult)
    ensures |buf| == 0 ==> r == UsbResult(false, [Truncated(0)])
  {
    if |buf| == 0 then UsbResult(false, [Truncated(0)])
    else if buf[0] == 0x1B then UsbResult(true, FrameEvents(buf[1..], hasTree, table, matchesId))
    else UsbResult(false, [])
  }

  method DissectUsb(buf: seq<byte>, hasTree: bool, registry: Registry, matchesId: u32, out: Output)
    returns (accepted: bool)
    modifies out
    ensures accepted == UsbEvents(buf, hasTree, registry.table, matchesId).accepted
    ensures out.events == old(out.events) + UsbEvents(buf, hasTree, registry.table, matchesId).events
  {
    if |buf| == 0 {
      out.Add(Truncated(0));
      return false;
    }
    if buf[0] == 0x1B {
      DissectFrame(buf[1..], hasTree, registry, matchesId, out);
      return true;
    }
    return false;
  }

  /** The USB strip accepts exactly the buffers whose first byte is 0x1B, and decodes the rest as a frame. */
  lemma UsbStrip(buf: seq<byte>, hasTree: bool, table: map<byte, Decoder>, matchesId: u32)
    requires |buf| > 0
    ensures UsbEvents(buf, hasTree, table, matchesId).accepted <==> buf[0] == 0x1B
    ensures buf[0] == 0x1B ==> UsbEvents(buf, hasTree, table, matchesId).events == FrameEvents(buf[1..], hasTree, table, matchesId)
    ensures buf[0] != 0x1B ==> UsbEvents(buf, hasTree, table, matchesId).events == []
  {
  }
}
