// GPRS data service resource (isi-gpds.c): command decoder and sub-block reader.
module Gpds {
  import opened Wire
  import IsiCommon

  /** The resource id proto_reg_handoff_isi_gpds binds the decoder to. */
  const ResourceId: byte := 0x31

  // ---------------------------------------------------------------------
  // Sub-block readers
  // ---------------------------------------------------------------------

  /** The QoS99 negotiated info block: six one-byte fields, then six two-byte fields. */
  function Qos99NegInfo(): (r: seq<Event>)
    ensures |r| == 12
    ensures forall i :: 0 <= i < 6 ==> r[i].Field? && r[i].offset == 2 + i && r[i].width == 1
    ensures forall i :: 6 <= i < 12 ==> r[i].Field? && r[i].offset == 8 + 2 * (i - 6) && r[i].width == 2
  {
    [Field("isi_gpds_traffic_class", 2, 1),
     Field("isi_gpds_delivery_order", 3, 1),
     Field("isi_gpds_delivery_of_erroneous_sdus", 4, 1),
     Field("isi_gpds_residual_ber", 5, 1),
     Field("isi_gpds_error_ratio", 6, 1),
     Field("isi_gpds_priority", 7, 1),
     Field("isi_gpds_transfer_delay", 8, 2),
     Field("isi_gpds_max_sdu_size", 10, 2),
     Field("isi_gpds_max_bitrate_uplink", 12, 2),
     Field("isi_gpds_max_bitrate_downlink", 14, 2),
     Field("isi_gpds_gua_bitrate_uplink", 16, 2),
     Field("isi_gpds_gua_bitrate_downlink", 18, 2)]
  }

  /** The (pre-Release-99) QoS negotiated info block: five one-byte fields from offset 2. */
  function QosNegInfo(): (r: seq<Event>)
    ensures |r| == 5
    ensures forall i :: 0 <= i < 5 ==> r[i].Field? && r[i].offset == 2 + i && r[i].width == 1
  {
    [Field("isi_gpds_precedence", 2, 1),
     Field("isi_gpds_delay", 3, 1),
     Field("isi_gpds_reliability", 4, 1),
     Field("isi_gpds_peak_throughput", 5, 1),
     Field("isi_gpds_mean_throughput", 6, 1)]
  }

  /** The shared Release 5 QoS info block. */
  function SharedRel5QosInfo(): (r: seq<Event>)
    ensures |r| == 2 && r[0].Field? && r[0].offset == 2 && r[1].Field? && r[1].offset == 3
  {
    [Field("isi_gpds_rel5_source_desc", 2, 1), Field("isi_gpds_rel5_sgn_ind_flag", 3, 1)]
  }

  /** Sub-block types dissect_isi_gpds_subblock has a case of its own for. */
  predicate HasReader(sptype: byte)
  {
    sptype == 0x03 || sptype == 0x04 || sptype == 0x05 || sptype == 0x08 || sptype == 0x0D || sptype == 0x0E
    || sptype == 0x90 || sptype == 0xE4 || sptype == 0xF8
  }

  /** What dissect_isi_gpds_subblock appends for one sub-block of the given type. */
  function SubblockEvents(sptype: byte, tvb: seq<byte>): seq<Event>
  {
    match sptype
    case 0x03 => QosNegInfo()
    case 0x04 => PrefixedString("isi_gpds_pdp_address", 3, tvb)
    case 0x05 => PrefixedString("isi_gpds_apn", 2, tvb)
    case 0x08 => Qos99NegInfo()
    case 0x0D => PrefixedString("isi_gpds_pdns_address", 3, tvb)
    case 0x0E => PrefixedString("isi_gpds_sdns_address", 3, tvb)
    case 0x90 => []
    case 0xE4 => Qos99NegInfo()
    case 0xF8 => SharedRel5QosInfo()
    case _ => [Warning("unsupported subblock")]
  }

  method Subblock(sptype: byte, tvb: seq<byte>, out: Output)
    modifies out
    ensures out.events == old(out.events) + SubblockEvents(sptype, tvb)
  {
    match sptype
    case 0x04 => AddPrefixedString("isi_gpds_pdp_address", 3, tvb, out);
    case 0x05 => AddPrefixedString("isi_gpds_apn", 2, tvb, out);
    case 0x0D => AddPrefixedString("isi_gpds_pdns_address", 3, tvb, out);
    case 0x0E => AddPrefixedString("isi_gpds_sdns_address", 3, tvb, out);
    case _ => out.Append(SubblockEvents(sptype, tvb));
  }

  /** Every type without a reader of its own gives exactly one "unsupported subblock" warning. */
  lemma UnsupportedSubblock(sptype: byte, tvb: seq<byte>)
    requires !HasReader(sptype)
    ensures SubblockEvents(sptype, tvb) == [Warning("unsupported subblock")]
    ensures Warnings(SubblockEvents(sptype, tvb)) == 1
  {
    OneWarning([], "unsupported subblock", []);
  }

  /** The types with a reader raise no warning; 0x90 (DNS address request) is read as empty. */
  lemma SupportedSubblockQuiet(sptype: byte, tvb: seq<byte>)
    requires HasReader(sptype)
    ensures Quiet(SubblockEvents(sptype, tvb))
    ensures sptype == 0x90 ==> SubblockEvents(sptype, tvb) == []
  {
  }

  /** The QoS blocks 0x08 and 0xE4 share one reader; 0x03 and 0xF8 have their own. */
  lemma QosSubblocks(tvb: seq<byte>)
    ensures SubblockEvents(0x08, tvb) == SubblockEvents(0xE4, tvb) == Qos99NegInfo()
    ensures SubblockEvents(0x03, tvb) == QosNegInfo()
    ensures SubblockEvents(0xF8, tvb) == SharedRel5QosInfo()
  {
  }

  /** The address and APN blocks are length-prefixed strings: PDP, PDNS and SDNS at 3, APN at 2. */
  lemma SubblockStrings(sptype: byte, tvb: seq<byte>)
    requires sptype == 0x04 || sptype == 0x05 || sptype == 0x0D || sptype == 0x0E
    ensures var off := if sptype == 0x05 then 2 else 3;
      off + 1 + (if off < |tvb| then tvb[off] else 0) <= |tvb| ==>
        var r := SubblockEvents(sptype, tvb);
        |r| == 1 && r[0].Text? && r[0].offset == off + 1 && r[0].width == tvb[off]
        && r[0].value == tvb[off + 1 .. off + 1 + tvb[off]]
  {
  }

  // ---------------------------------------------------------------------
  // Command decoder
  // ---------------------------------------------------------------------

  /** Commands dissect_isi_gpds decodes itself (0xF0 is handed to the common decoder). */
  predicate Decoded(cmd: byte)
  {
    cmd == 0x00 || cmd == 0x01 || cmd == 0x02 || cmd == 0x03 || cmd == 0x04 || cmd == 0x06
    || cmd == 0x07 || cmd == 0x08 || cmd == 0x09 || cmd == 0x0A || cmd == 0x15 || cmd == 0x19
    || cmd == 0x1A || cmd == 0x1E || cmd == 0x22 || cmd == 0x23 || cmd == 0x24 || cmd == 0x25
    || cmd == 0x30 || cmd == 0x31
  }

  /**
   * What follows the command field for a command other than the common
   * message: its summary first, then its fields and sub-block walk.
   */
  function CommandEvents(cmd: byte): seq<Event>
    requires cmd != 0xF0
  {
    match cmd
    case 0x00 =>
      [Summary("GPDS LL Configure Request"), Field("isi_gpds_cid", 1, 1),
       Field("isi_gpds_pipe_handle", 2, 1), Field("isi_gpds_ppp_mode", 3, 1)]
    case 0x01 =>
      [Summary("GPDS LL Configure Response"), Field("isi_gpds_cid", 1, 1), Field("isi_gpds_status", 2, 1)]
    case 0x02 => [Summary("GPDS Context ID Create Request")]
    case 0x03 =>
      [Summary("GPDS Context ID Create Response"), Field("isi_gpds_cid", 1, 1), Field("isi_gpds_status", 2, 1)]
    case 0x04 => [Summary("GPDS Context ID Create Indication"), Field("isi_gpds_cid", 1, 1)]
    case 0x06 =>
      [Summary("GPDS Context Configure Request"), Field("isi_gpds_cid", 1, 1),
       Field("isi_gpds_pdp_type", 2, 1), Field("isi_gpds_context_type", 3, 1),
       Field("isi_gpds_primary_cid", 4, 1), Walk(7, GpdsSubblock)]
    case 0x07 =>
      [Summary("GPDS Context Configure Response"), Field("isi_gpds_cid", 1, 1), Field("isi_gpds_status", 2, 1)]
    case 0x08 =>
      [Summary("GPDS Context Activate Request"), Field("isi_gpds_cid", 1, 1), Walk(3, GpdsSubblock)]
    case 0x09 =>
      [Summary("GPDS Context Activate Response"), Field("isi_gpds_cid", 1, 1),
       Field("isi_gpds_status", 2, 1), Field("isi_gpds_cause", 3, 1), Walk(7, GpdsSubblock)]
    case 0x0A =>
      [Summary("GPDS Context Activate Indication"), Field("isi_gpds_cid", 1, 1), Walk(3, GpdsSubblock)]
    case 0x15 => [Summary("GPDS Attach Indication"), Field("isi_gpds_attach_type", 1, 1)]
    case 0x19 => [Summary("GPDS Status Request")]
    case 0x1A =>
      [Summary("GPDS Status Response"), Field("isi_gpds_attach_status", 1, 1),
       Field("isi_gpds_context_count", 2, 1), Field("isi_gpds_tx_byte_count", 3, 4),
       Field("isi_gpds_rx_byte_count", 7, 4), Field("isi_gpds_transfer_status", 11, 1),
       Field("isi_gpds_transfer_cause", 12, 1)]
    case 0x1E =>
      [Summary("GPDS Transfer Status Indication"), Field("isi_gpds_transfer_status", 1, 1),
       Field("isi_gpds_transfer_cause", 2, 1)]
    case 0x22 => [Summary("GPDS Context Status Request"), Field("isi_gpds_cid", 1, 1)]
    case 0x23 =>
      [Summary("GPDS Context Status Response"), Field("isi_gpds_cid", 1, 1),
       Field("isi_gpds_status", 2, 1), Field("isi_gpds_tx_byte_count", 3, 4),
       Field("isi_gpds_rx_byte_count", 7, 4), Walk(15, GpdsSubblock)]
    case 0x24 =>
      [Summary("GPDS Context Status Indication"), Field("isi_gpds_cid", 2, 1),
       Field("isi_gpds_tx_byte_count", 3, 4), Field("isi_gpds_rx_byte_count", 7, 4)]
    case 0x25 =>
      [Summary("GPDS Context Activating Indication"), Field("isi_gpds_cid", 1, 1),
       Field("isi_gpds_client_type", 2, 1), Field("isi_gpds_pdp_type", 3, 1),
       Field("isi_gpds_context_type", 4, 1), Walk(7, GpdsSubblock)]
    case 0x30 => [Summary("GPDS Configuration Info Request")]
    case 0x31 =>
      [Summary("GPDS Configuration Info Response"), Field("isi_gpds_attach_mode", 1, 1),
       Field("isi_gpds_mt_act_mode", 2, 1), Field("isi_gpds_classc_mode", 3, 1),
       Field("isi_gpds_aol_context", 4, 1)]
    case _ => [Summary("unhandled GPDS packet"), Warning("unsupported packet")]
  }

  /** What dissect_isi_gpds appends for a payload; nothing without a tree. */
  function Events(tvb: seq<byte>, hasTree: bool): (r: seq<Event>)
    ensures !hasTree ==> r == []
    ensures hasTree ==> 1 <= |r| && r[0] == Field("isi_gpds_cmd", 0, 1)
    ensures hasTree && |tvb| == 0 ==> r == [Field("isi_gpds_cmd", 0, 1), Truncated(0)]
  {
    if !hasTree then []
    else if |tvb| == 0 then [Field("isi_gpds_cmd", 0, 1), Truncated(0)]
    else if tvb[0] == 0xF0 then [Field("isi_gpds_cmd", 0, 1)] + IsiCommon.Events("GPDS", tvb)
    else [Field("isi_gpds_cmd", 0, 1)] + CommandEvents(tvb[0])
  }

  method Dissect(tvb: seq<byte>, hasTree: bool, out: Output)
    modifies out
    ensures out.events == old(out.events) + Events(tvb, hasTree)
  {
    if !hasTree {
      return;
    }
    out.Add(Field("isi_gpds_cmd", 0, 1));
    if |tvb| == 0 {
      out.Add(Truncated(0));
      return;
    }
    var cmd := tvb[0];
    if cmd == 0xF0 {
      IsiCommon.Dissect("GPDS", tvb, out);
      AppendAssoc(old(out.events), [Field("isi_gpds_cmd", 0, 1)], IsiCommon.Events("GPDS", tvb));
    } else {
      var tail := CommandEvents(cmd);
      out.Append(tail);
      AppendAssoc(old(out.events), [Field("isi_gpds_cmd", 0, 1)], tail);
    }
  }

  /** Context Configure Request: cid, PDP type, context type, primary cid, then sub-blocks from 7. */
  lemma ContextConfigureRequest(tvb: seq<byte>)
    requires |tvb| > 0 && tvb[0] == 0x06
    ensures Events(tvb, true) ==
      [Field("isi_gpds_cmd", 0, 1), Summary("GPDS Context Configure Request"),
       Field("isi_gpds_cid", 1, 1), Field("isi_gpds_pdp_type", 2, 1),
       Field("isi_gpds_context_type", 3, 1), Field("isi_gpds_primary_cid", 4, 1),
       Walk(7, GpdsSubblock)]
  {
  }

  /** Status Response: byte counters are four bytes wide at 3 and 7, then transfer status and cause. */
  lemma StatusResponse(tvb: seq<byte>)
    requires |tvb| > 0 && tvb[0] == 0x1A
    ensures var r := Events(tvb, true);
      |r| == 8 && r[4] == Field("isi_gpds_tx_byte_count", 3, 4) && r[5] == Field("isi_gpds_rx_byte_count", 7, 4)
      && r[6] == Field("isi_gpds_transfer_status", 11, 1) && r[7] == Field("isi_gpds_transfer_cause", 12, 1)
  {
  }

  /** Context Status Indication reads the context id at offset 2, not 1. */
  lemma ContextStatusIndication(tvb: seq<byte>)
    requires |tvb| > 0 && tvb[0] == 0x24
    ensures Field("isi_gpds_cid", 2, 1) in Events(tvb, true)
    ensures Field("isi_gpds_cid", 1, 1) !in Events(tvb, true)
  {
  }

  /** Every command with a case of its own decodes without a warning. */
  lemma ListedQuiet(tvb: seq<byte>)
    requires |tvb| > 0 && Decoded(tvb[0])
    ensures Quiet(Events(tvb, true))
  {
  }

  /**
   * A message warns exactly when its command is neither listed nor the
   * common message: the default case is the decoder's only warning.
   */
  lemma WarnsIffUnlisted(tvb: seq<byte>)
    requires |tvb| > 0
    ensures Warnings(Events(tvb, true)) > 0 <==> !Decoded(tvb[0]) && tvb[0] != 0xF0
  {
    if tvb[0] == 0xF0 {
      WarningsAppend([Field("isi_gpds_cmd", 0, 1)], IsiCommon.Events("GPDS", tvb));
    } else if Decoded(tvb[0]) {
      ListedQuiet(tvb);
      QuietWarnings(Events(tvb, true));
    } else {
      UnhandledCommands(tvb);
    }
  }

  /** 0xF0 is handed to the common decoder under the name "GPDS". */
  lemma CommonMessage(tvb: seq<byte>)
    requires |tvb| > 0 && tvb[0] == 0xF0
    ensures Events(tvb, true) == [Field("isi_gpds_cmd", 0, 1)] + IsiCommon.Events("GPDS", tvb)
  {
  }

  /**
   * Every command the decoder does not decode itself, listed in the source
   * or not, gives "unhandled GPDS packet" and its one warning.
   */
  lemma UnhandledCommands(tvb: seq<byte>)
    requires |tvb| > 0 && !Decoded(tvb[0]) && tvb[0] != 0xF0
    ensures Events(tvb, true) ==
      [Field("isi_gpds_cmd", 0, 1), Summary("unhandled GPDS packet"), Warning("unsupported packet")]
    ensures Warnings(Events(tvb, true)) == 1
  {
    OneWarning([Field("isi_gpds_cmd", 0, 1), Summary("unhandled GPDS packet")], "unsupported packet", []);
  }

}
