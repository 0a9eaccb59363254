// Call resource (isi-call.c): command decoder and sub-block reader.
module Call {
  import opened Wire
  import IsiCommon

  /** The resource id proto_reg_handoff_isi_call binds the decoder to. */
  const ResourceId: byte := 0x01

  /** What dissect_isi_call_subblock appends: status mode, cause, or nothing at all. */
  function SubblockEvents(sptype: byte): seq<Event>
  {
    match sptype
    case 0x1C => [Field("isi_call_status_mode", 2, 1)]
    case 0x08 => [Field("isi_call_cause_type", 2, 1), Field("isi_call_cause", 3, 1)]
    case _ => []
  }

  method Subblock(sptype: byte, tvb: seq<byte>, out: Output)
    modifies out
    ensures out.events == old(out.events) + SubblockEvents(sptype)
  {
    out.Append(SubblockEvents(sptype));
  }

  /** The call sub-block reader never warns; types other than 0x1C and 0x08 add nothing. */
  lemma SubblockQuiet(sptype: byte)
    ensures Quiet(SubblockEvents(sptype))
    ensures sptype != 0x1C && sptype != 0x08 ==> SubblockEvents(sptype) == []
  {
  }

  /** Commands with a case of their own in dissect_isi_call (0xF0 aside). */
  predicate Decoded(cmd: byte)
  {
    (0x01 <= cmd <= 0x1C) || (0x1E <= cmd <= 0x3C) || (0x3E <= cmd <= 0x43) || (0xA0 <= cmd <= 0xAF)
  }

  /** The COL_INFO text each case of dissect_isi_call sets before anything else. */
  function CommandName(cmd: byte): string
  {
    if !Decoded(cmd) then "unhandled Call packet"
    else match cmd
    case 0x01 => "Call Create Request"
    case 0x02 => "Call Create Response"
    case 0x03 => "Call Coming Indication"
    case 0x04 => "Call MO Allert Indication"
    case 0x05 => "Call MT Allert Indication"
    case 0x06 => "Call Waiting Indication"
    case 0x07 => "Call Answer Request"
    case 0x08 => "Call Answer Response"
    case 0x09 => "Call Release Request"
    case 0x0A => "Call Release Response"
    case 0x0B => "Call Release Indication"
    case 0x0C => "Call Terminated Indication"
    case 0x0D => "Call Status Request"
    case 0x0E => "Call Status Response"
    case 0x0F => "Call Status Indication"
    case 0x10 => "Call Server Status Indication"
    case 0x11 => "Call Control Request"
    case 0x12 => "Call Control Response"
    case 0x13 => "Call Control Indication"
    case 0x14 => "Call Mode Switch Request"
    case 0x15 => "Call Mode Switch Response"
    case 0x16 => "Call Mode Switch Indication"
    case 0x17 => "Call DTMF Send Request"
    case 0x18 => "Call DTMF Send Response"
    case 0x19 => "Call DTMF Stop Request"
    case 0x1A => "Call DTMF Stop Response"
    case 0x1B => "Call DTMF Status Indication"
    case 0x1C => "Call DTMF Tone Indication"
    case 0x1E => "Call Reconnect Indication"
    case 0x1F => "Call Property Get Request"
    case 0x20 => "Call Property Get Response"
    case 0x21 => "Call Property Set Request"
    case 0x22 => "Call Property Set Response"
    case 0x23 => "Call Property Set Indication"
    case 0x24 => "Call Emergency NBR Modify Request"
    case 0x25 => "Call Emergency NBR Modify Response"
    case 0x26 => "Call Emergency NBR Get Request"
    case 0x27 => "Call Emergency NBR Get Response"
    case 0x28 => "Call Emergency NBR Check Request"
    case 0x29 => "Call Emergency NBR Check Response"
    case 0x2A => "Call Create No SIMATK Request"
    case 0x2B => "Call Timer Request"
    case 0x2C => "Call Timer Response"
    case 0x2D => "Call Timer NTF"
    case 0x2E => "Call Timer Indication"
    case 0x2F => "Call Timer Reset Request"
    case 0x30 => "Call Timer Reset Response"
    case 0x31 => "Call Emergency NBR Indication"
    case 0x32 => "Call Service Denied Indication"
    case 0x33 => "Call User Connect Indication"
    case 0x34 => "Call Release End Request"
    case 0x35 => "Call Release End Response"
    case 0x36 => "Call Kodiak Allow Control Request"
    case 0x37 => "Call Kodiak Allow Control Response"
    case 0x38 => "Call Service Activate Indication"
    case 0x39 => "Call Service Activate Request"
    case 0x3A => "Call Service Activate Response"
    case 0x3B => "Call SIM ATK Indication"
    case 0x3C => "Call Control Operator Indication"
    case 0x3E => "Call Test Call Status Indication"
    case 0x3F => "Call SIM ATK Info Indication"
    case 0x40 => "Call Audio Connect Indication"
    case 0x41 => "Call Security Indication"
    case 0x42 => "Call Media Handle Request"
    case 0x43 => "Call Media Handle Response"
    case 0xA0 => "Call GSM Notification Indication"
    case 0xA1 => "Call GSM User To User Request"
    case 0xA2 => "Call GSM User To User Response"
    case 0xA3 => "Call GSM User To User Indication"
    case 0xA4 => "Call GSM Blacklist Clear Request"
    case 0xA5 => "Call GSM Blacklist Clear Response"
    case 0xA6 => "Call GSM Blacklist Timer Indication"
    case 0xA7 => "Call GSM Data Channel Info Indication"
    case 0xA8 => "Call GSM RAB Indication"
    case 0xA9 => "Call GSM Coming Reject Indication"
    case 0xAA => "Call GSM CCP Get Request"
    case 0xAB => "Call GSM CCP Get Response"
    case 0xAC => "Call GSM CCP Check Request"
    case 0xAD => "Call GSM CCP Check Response"
    case 0xAE => "Call GSM Immediate Modify Indication"
    case 0xAF => "Call GSM SS Data Indication"
    case _ => "unhandled Call packet"
  }

  /** The items each case of dissect_isi_call adds after its summary; most add none. */
  function CommandItems(cmd: byte): seq<Event>
  {
    match cmd
    case 0x0D => [Field("isi_call_id", 1, 1), Walk(3, CallSubblock)]
    case 0x0E => [Walk(3, CallSubblock)]
    case _ => if Decoded(cmd) then [] else [Warning("unsupported packet")]
  }

  /** What dissect_isi_call appends for a payload; nothing without a tree. */
  function Events(tvb: seq<byte>, hasTree: bool): (r: seq<Event>)
    ensures !hasTree ==> r == []
    ensures hasTree ==> 1 <= |r| && r[0] == Field("isi_call_cmd", 0, 1)
    ensures hasTree && |tvb| == 0 ==> r == [Field("isi_call_cmd", 0, 1), Truncated(0)]
  {
    if !hasTree then []
    else if |tvb| == 0 then [Field("isi_call_cmd", 0, 1), Truncated(0)]
    else if tvb[0] == 0xF0 then [Field("isi_call_cmd", 0, 1)] + IsiCommon.Events("Call", tvb)
    else [Field("isi_call_cmd", 0, 1), Summary(CommandName(tvb[0]))] + CommandItems(tvb[0])
  }

  method Dissect(tvb: seq<byte>, hasTree: bool, out: Output)
    modifies out
    ensures out.events == old(out.events) + Events(tvb, hasTree)
  {
    if !hasTree {
      return;
    }
    out.Add(Field("isi_call_cmd", 0, 1));
    if |tvb| == 0 {
      out.Add(Truncated(0));
      return;
    }
    var cmd := tvb[0];
    if cmd == 0xF0 {
      IsiCommon.Dissect("Call", tvb, out);
      AppendAssoc(old(out.events), [Field("isi_call_cmd", 0, 1)], IsiCommon.Events("Call", tvb));
    } else {
      out.Add(Summary(CommandName(cmd)));
      var items := CommandItems(cmd);
      out.Append(items);
      AppendAssoc(old(out.events), [Field("isi_call_cmd", 0, 1), Summary(CommandName(cmd))], items);
    }
  }

  /** CALL_STATUS_REQ: the call id at 1, then sub-blocks from offset 3. */
  lemma StatusRequest(tvb: seq<byte>)
    requires |tvb| > 0 && tvb[0] == 0x0D
    ensures Events(tvb, true) ==
      [Field("isi_call_cmd", 0, 1), Summary("Call Status Request"), Field("isi_call_id", 1, 1), Walk(3, CallSubblock)]
  {
  }

  /** CALL_STATUS_RESP: sub-blocks from offset 3 and no other field. */
  lemma StatusResponse(tvb: seq<byte>)
    requires |tvb| > 0 && tvb[0] == 0x0E
    ensures Events(tvb, true) == [Field("isi_call_cmd", 0, 1), Summary("Call Status Response"), Walk(3, CallSubblock)]
  {
  }

  /** Every other listed command sets its summary and nothing else. */
  lemma SummaryOnlyCommands(tvb: seq<byte>)
    requires |tvb| > 0 && Decoded(tvb[0]) && tvb[0] != 0x0D && tvb[0] != 0x0E
    ensures Events(tvb, true) == [Field("isi_call_cmd", 0, 1), Summary(CommandName(tvb[0]))]
    ensures Quiet(Events(tvb, true))
  {
  }

  /** Codes the decoder does not list give "unhandled Call packet" and one warning. */
  lemma UnhandledCommands(tvb: seq<byte>)
    requires |tvb| > 0 && !Decoded(tvb[0]) && tvb[0] != 0xF0
    ensures Events(tvb, true) ==
      [Field("isi_call_cmd", 0, 1), Summary("unhandled Call packet"), Warning("unsupported packet")]
    ensures Warnings(Events(tvb, true)) == 1
  {
    OneWarning([Field("isi_call_cmd", 0, 1), Summary("unhandled Call packet")], "unsupported packet", []);
  }

  /** 0xF0 is handed to the common decoder under the name "Call". */
  lemma CommonMessage(tvb: seq<byte>)
    requires |tvb| > 0 && tvb[0] == 0xF0
    ensures Events(tvb, true) == [Field("isi_call_cmd", 0, 1)] + IsiCommon.Events("Call", tvb)
  {
  }
}
