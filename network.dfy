// Network resource (isi-network.c): command decoder, sub-block readers and
// the UTF-16 to ASCII conversion of operator names.
module Network {
  import opened Wire
  import IsiCommon

  /** The resource id proto_reg_handoff_isi_network binds the decoder to. */
  const ResourceId: byte := 0x0A

  // ---------------------------------------------------------------------
  // utf16_to_ascii
  // ---------------------------------------------------------------------

  /**
   * The buffer utf16_to_ascii returns for len UTF-16 code units: the low
   * (second, big-endian) byte of each unit, then a NUL terminator.
   */
  function AsciiOfUtf16(units: seq<byte>, len: nat): (r: seq<byte>)
    requires 2 * len <= |units|
    ensures |r| == len + 1 && r[len] == 0
    ensures forall i :: 0 <= i < len ==> r[i] == units[2 * i + 1]
    decreases len
  {
    if len == 0 then [0]
    else [units[1]] + AsciiOfUtf16(units[2..], len - 1)
  }

  /** Writes out[i] := in[2i + 1] for each i < len into a fresh buffer of len + 1 bytes, then the NUL. */
  method Utf16ToAscii(input: seq<byte>, len: nat) returns (out: array<byte>)
    requires 2 * len <= |input|
    ensures fresh(out)
    ensures out[..] == AsciiOfUtf16(input, len)
  {
    out := new byte[len + 1];
    var i := 0;
    while i < len
      invariant 0 <= i <= len
      invariant forall k :: 0 <= k < i ==> out[k] == input[2 * k + 1]
    {
      out[i] := input[2 * i + 1];
      i := i + 1;
    }
    out[len] := 0;
    assert forall k :: 0 <= k <= len ==> out[k] == AsciiOfUtf16(input, len)[k];
  }

  /** Big-endian UTF-16 of a string of 8-bit characters: a zero high byte before each character. */
  function Utf16Be(s: seq<byte>): (r: seq<byte>)
    ensures |r| == 2 * |s|
  {
    if s == [] then [] else [0, s[0]] + Utf16Be(s[1..])
  }

  /** utf16_to_ascii undoes Utf16Be: the characters come back, followed by the terminator. */
  lemma {:induction false} AsciiOfUtf16Be(s: seq<byte>)
    ensures AsciiOfUtf16(Utf16Be(s), |s|) == s + [0]
    decreases |s|
  {
    if s != [] {
      var u := Utf16Be(s);
      assert u[1] == s[0];
      assert u[2..] == Utf16Be(s[1..]);
      AsciiOfUtf16Be(s[1..]);
      assert [s[0]] + (s[1..] + [0]) == s + [0];
    }
  }

  // ---------------------------------------------------------------------
  // Sub-block readers
  // ---------------------------------------------------------------------

  /** _sub_modem_current_cell_info: fourteen fields from offset 2 to 20; EGPRS and DTM support share byte 17. */
  function ModemCurrentCellInfo(): (r: seq<Event>)
    ensures |r| == 14
    ensures r[9] == Field("isi_network_egprs_support", 17, 1) && r[10] == Field("isi_network_dtm_support", 17, 1)
  {
    [Field("isi_network_status_sub_lac", 2, 2),
     Field("isi_network_status_sub_cid", 4, 4),
     Field("isi_network_operator_code", 8, 3),
     Field("isi_network_gsm_band_info", 11, 1),
     Field("isi_network_type", 12, 1),
     Field("isi_network_gprs_support", 13, 1),
     Field("isi_network_gprs_mode", 14, 1),
     Field("isi_network_cs_services", 15, 1),
     Field("isi_network_gprs_services", 16, 1),
     Field("isi_network_egprs_support", 17, 1),
     Field("isi_network_dtm_support", 17, 1),
     Field("isi_network_current_rac", 18, 1),
     Field("isi_network_hdspa_available", 19, 1),
     Field("isi_network_hsupa_available", 20, 1)]
  }

  /** _sub_rat_info: the extension length is read at 3 before anything is added. */
  function RatInfo(tvb: seq<byte>): (r: seq<Event>)
    ensures |tvb| <= 3 ==> r == [Truncated(3)]
    ensures |tvb| > 3 ==> r == [Field("isi_network_rat_name", 2, 1), Field("isi_network_rat_info", 4, tvb[3])]
  {
    if |tvb| <= 3 then [Truncated(3)]
    else [Field("isi_network_rat_name", 2, 1), Field("isi_network_rat_info", 4, tvb[3])]
  }

  /**
   * _sub_gsm_reg_network_info: the name length l is read at 5, name type and
   * country initials are added, then 2l bytes of UTF-16 are copied from 6 and
   * converted; the string item spans those 2l bytes.
   */
  function GsmRegNetworkInfo(tvb: seq<byte>): (r: seq<Event>)
    ensures |tvb| <= 5 ==> r == [Truncated(5)]
    ensures |tvb| > 5 ==>
      |r| == 3 && r[0] == Field("isi_network_name_type", 2, 1) && r[1] == Field("isi_network_country_initials", 3, 1)
    ensures |tvb| > 5 && 6 + 2 * (tvb[5] as int) > |tvb| ==> r[2] == Truncated(6)
    ensures |tvb| > 5 && 6 + 2 * (tvb[5] as int) <= |tvb| ==>
      r[2].Text? && r[2].offset == 6 && r[2].width == 2 * (tvb[5] as int) && |r[2].value| == tvb[5]
      && forall i :: 0 <= i < tvb[5] ==> r[2].value[i] == tvb[6 + 2 * i + 1]
  {
    if |tvb| <= 5 then [Truncated(5)]
    else
      var l: nat := tvb[5];
      [Field("isi_network_name_type", 2, 1), Field("isi_network_country_initials", 3, 1)]
      + (if 6 + 2 * l > |tvb| then [Truncated(6)]
         else [Text("isi_network_status_sub_msg", 6, 2 * l, AsciiOfUtf16(tvb[6 .. 6 + 2 * l], l)[..l])])
  }

  method AddRatInfo(tvb: seq<byte>, out: Output)
    modifies out
    ensures out.events == old(out.events) + RatInfo(tvb)
  {
    if |tvb| <= 3 {
      out.Add(Truncated(3));
      return;
    }
    var extlen := tvb[3];
    out.Append([Field("isi_network_rat_name", 2, 1), Field("isi_network_rat_info", 4, extlen)]);
  }

  method AddGsmRegNetworkInfo(tvb: seq<byte>, out: Output)
    modifies out
    ensures out.events == old(out.events) + GsmRegNetworkInfo(tvb)
  {
    if |tvb| <= 5 {
      out.Add(Truncated(5));
      return;
    }
    var l: nat := tvb[5];
    var head := [Field("isi_network_name_type", 2, 1), Field("isi_network_country_initials", 3, 1)];
    out.Append(head);
    if 6 + 2 * l > |tvb| {
      out.Add(Truncated(6));
      AppendAssoc(old(out.events), head, [Truncated(6)]);
      return;
    }
    var utf16 := tvb[6 .. 6 + 2 * l];
    var ascii := Utf16ToAscii(utf16, l);
    var name := ascii[..l];
    assert name == AsciiOfUtf16(utf16, l)[..l];
    out.Add(Text("isi_network_status_sub_msg", 6, 2 * l, name));
    AppendAssoc(old(out.events), head, [Text("isi_network_status_sub_msg", 6, 2 * l, name)]);
  }

  /** Sub-block types dissect_isi_network_subpacket has a reader for. */
  predicate HasReader(sptype: byte)
  {
    sptype == 0x00 || sptype == 0x04 || sptype == 0x09 || sptype == 0x28 || sptype == 0x29
    || sptype == 0x2C || sptype == 0x39 || sptype == 0x46 || sptype == 0x47 || sptype == 0xE3
  }

  /** What dissect_isi_network_subpacket appends for one sub-block of the given type. */
  function SubpacketEvents(sptype: byte, tvb: seq<byte>): seq<Event>
  {
    match sptype
    case 0x00 => [Field("isi_network_registration_status", 2, 1), Field("isi_network_selection_mode", 3, 1)]
    case 0x04 => [Field("isi_network_rssi_bars", 1, 1), Field("isi_network_rssi_db", 2, 1)]
    case 0x09 => [Field("isi_network_status_sub_lac", 0, 2), Field("isi_network_status_sub_cid", 4, 4)]
    case 0x28 => [Field("isi_network_uarfcn", 2, 2)]
    case 0x29 =>
      [Field("isi_network_ciphering_key_status", 2, 1), Field("isi_network_ciphering_context", 3, 1),
       Field("isi_network_rat_name", 4, 2)]
    case 0x2C => RatInfo(tvb)
    case 0x39 => ModemCurrentCellInfo()
    case 0x46 => [Field("isi_network_status_sub_lac", 2, 2), Field("isi_network_status_sub_cid", 4, 4), Bitmask(6, 4)]
    case 0x47 =>
      [Field("isi_network_status_sub_lac", 2, 2), Field("isi_network_status_sub_cid", 4, 4),
       Field("isi_network_operator_code", 12, 3), Field("isi_network_service_status", 15, 1),
       Field("isi_network_type", 16, 1)]
    case 0xE3 => GsmRegNetworkInfo(tvb)
    case _ => [Warning("unsupported packet")]
  }

  method Subpacket(sptype: byte, tvb: seq<byte>, out: Output)
    modifies out
    ensures out.events == old(out.events) + SubpacketEvents(sptype, tvb)
  {
    match sptype
    case 0x2C => AddRatInfo(tvb, out);
    case 0xE3 => AddGsmRegNetworkInfo(tvb, out);
    case _ => out.Append(SubpacketEvents(sptype, tvb));
  }

  /** Every type without a reader, listed in the source or not, gives exactly one "unsupported packet" warning. */
  lemma UnsupportedSubpacket(sptype: byte, tvb: seq<byte>)
    requires !HasReader(sptype)
    ensures SubpacketEvents(sptype, tvb) == [Warning("unsupported packet")]
    ensures Warnings(SubpacketEvents(sptype, tvb)) == 1
  {
    OneWarning([], "unsupported packet", []);
  }

  /** The ten readers never warn. */
  lemma SupportedSubpacketQuiet(sptype: byte, tvb: seq<byte>)
    requires HasReader(sptype)
    ensures Quiet(SubpacketEvents(sptype, tvb))
  {
  }

  /** NET_GSM_REG_INFO puts the LAC at offset 0 (not 2) and the cell id at 4. */
  lemma GsmRegInfo(tvb: seq<byte>)
    ensures SubpacketEvents(0x09, tvb) ==
      [Field("isi_network_status_sub_lac", 0, 2), Field("isi_network_status_sub_cid", 4, 4)]
  {
  }

  /** An operator name sent as big-endian UTF-16 of 8-bit characters is shown as those characters. */
  lemma OperatorName(tvb: seq<byte>, name: seq<byte>)
    requires |tvb| > 5 && |name| == tvb[5] && 6 + 2 * |name| <= |tvb|
    requires tvb[6 .. 6 + 2 * |name|] == Utf16Be(name)
    ensures GsmRegNetworkInfo(tvb)[2] == Text("isi_network_status_sub_msg", 6, 2 * |name|, name)
  {
    var units := tvb[6 .. 6 + 2 * |name|];
    AsciiOfUtf16Be(name);
    assert AsciiOfUtf16(units, |name|) == name + [0];
    assert (name + [0])[..|name|] == name;
  }

  // ---------------------------------------------------------------------
  // Command decoder
  // ---------------------------------------------------------------------

  /** Commands that only set a summary. */
  predicate SummaryOnly(cmd: byte)
  {
    cmd == 0x00 || cmd == 0x05 || cmd == 0x09 || (0x0D <= cmd <= 0x12) || (0x1A <= cmd <= 0x1D)
    || cmd == 0x27 || cmd == 0x28 || cmd == 0x29 || cmd == 0x2D || cmd == 0x2E || (0x31 <= cmd <= 0x34)
    || cmd == 0x38 || cmd == 0x39 || cmd == 0x3A || (0x3C <= cmd <= 0x41) || cmd == 0x43
    || cmd == 0xE0 || (0xE3 <= cmd <= 0xE6)
  }

  /** Commands whose message carries sub-blocks. */
  predicate Walks(cmd: byte)
  {
    (0x01 <= cmd <= 0x04) || cmd == 0x07 || cmd == 0x08 || cmd == 0x0B || cmd == 0x0C || cmd == 0x20
    || cmd == 0x2C || cmd == 0x35 || cmd == 0x37 || cmd == 0x42 || cmd == 0xE1 || cmd == 0xE2
  }

  /** Commands with a case of their own in dissect_isi_network (0xF0 aside). */
  predicate Decoded(cmd: byte)
  {
    SummaryOnly(cmd) || Walks(cmd) || cmd == 0x06 || cmd == 0x0A || cmd == 0x19 || cmd == 0x1E
    || cmd == 0x36 || cmd == 0x3B
  }

  /** The COL_INFO text each case of dissect_isi_network sets before anything else. */
  function CommandName(cmd: byte): string
  {
    match cmd
    case 0x00 => "Network Modem Registration Status Request"
    case 0x01 => "Network Modem Registration Status Response"
    case 0x02 => "Network Modem Registration Status Indication"
    case 0x03 => "Network Modem Available Get Request"
    case 0x04 => "Network Modem Available Get Response"
    case 0x05 => "Network Modem Available Cancel Request"
    case 0x06 => "Network Modem Available Cancel Response"
    case 0x07 => "Network Set Request"
    case 0x08 => "Network Set Response"
    case 0x09 => "Network Set Cancel Request"
    case 0x0A => "Network Set Cancel Response"
    case 0x0B => "Network RSSI Get Request"
    case 0x0C => "Network RSSI Get Response"
    case 0x0D => "Network CS Control Request"
    case 0x0E => "Network CS Control Response"
    case 0x0F => "Network CS Wakeup Request"
    case 0x10 => "Network CS Wakeup Response"
    case 0x11 => "Network Test Carrier Request"
    case 0x12 => "Network Test Carrier Response"
    case 0x19 => "Network CS State Indication"
    case 0x1A => "Network Neighbour Cells Request"
    case 0x1B => "Network Neighbour Cells Response"
    case 0x1C => "Network Select Mode Set Request"
    case 0x1D => "Network Select Mode Set Response"
    case 0x1E => "Network RSSI Indication"
    case 0x20 => "Network Ciphering Indication"
    case 0x27 => "Network Time Indication"
    case 0x28 => "Network Old Operator Name Read Request"
    case 0x29 => "Network Old Operator Name Read Response"
    case 0x2C => "Network Channel Info Indication"
    case 0x2D => "Network Channel Info Request"
    case 0x2E => "Network Channel Info Response"
    case 0x31 => "Network GSM LCS Location Indication"
    case 0x32 => "Network SIM Refresh Request"
    case 0x33 => "Network SIM Refresh Response"
    case 0x34 => "Network GSM LCS ASTNC NTF"
    case 0x35 => "Network RAT Indication"
    case 0x36 => "Network RAT Request"
    case 0x37 => "Network RAT Response"
    case 0x38 => "Network AGPS Frame Trigger Request"
    case 0x39 => "Network AGPS Frame Trigger Response"
    case 0x3A => "Network CS State Request"
    case 0x3B => "Network CS State Response"
    case 0x3C => "Network UMA Info Indication"
    case 0x3D => "Netwrok RRLP SUPL Handle Request"
    case 0x3E => "Netwrok RRLP SUPL Handle Response"
    case 0x3F => "Network Radio Info Indication"
    case 0x40 => "Network Cell Info Get Request"
    case 0x41 => "Network Cell Info Get Response"
    case 0x42 => "Network Cell Info Indication"
    case 0x43 => "Network NITZ Name Indication"
    case 0xE0 => "Network Registration Status Get Request"
    case 0xE1 => "Network Registration Status Get Response"
    case 0xE2 => "Network Registration Status Indication"
    case 0xE3 => "Network Available Get Request"
    case 0xE4 => "Network Available Get Response"
    case 0xE5 => "Network Operator Name Read Request"
    case 0xE6 => "Network Operator Name Read Response"
    case _ => "unknown Network packet"
  }

  /** The items each case of dissect_isi_network adds after its summary. */
  function CommandItems(cmd: byte): seq<Event>
  {
    match cmd
    case 0x00 => []
    case 0x01 => [Walk(3, NetworkSubpacket)]
    case 0x02 => [Walk(3, NetworkSubpacket)]
    case 0x03 => [Field("isi_network_search_mode", 1, 1), Walk(3, NetworkSubpacket)]
    case 0x04 => [Field("isi_network_success_code", 1, 1), Walk(3, NetworkSubpacket)]
    case 0x05 => []
    case 0x06 => [Field("isi_network_success_code", 1, 1)]
    case 0x07 => [Field("isi_network_registration_protocol", 1, 1), Walk(3, NetworkSubpacket)]
    case 0x08 => [Field("isi_network_success_code", 1, 1), Walk(3, NetworkSubpacket)]
    case 0x09 => []
    case 0x0A => [Field("isi_network_success_code", 1, 1)]
    case 0x0B =>
      [Field("isi_network_cs_type", 1, 1), Field("isi_network_measurement_type", 2, 1), Walk(7, NetworkSubpacket)]
    case 0x0C => [Field("isi_network_success_code", 1, 1), Walk(3, NetworkSubpacket)]
    case 0x0D => []
    case 0x0E => []
    case 0x0F => []
    case 0x10 => []
    case 0x11 => []
    case 0x12 => []
    case 0x19 =>
      [Field("isi_network_cs_state", 1, 1), Field("isi_network_cs_type", 2, 1), Field("isi_network_cs_operation", 3, 1)]
    case 0x1A => []
    case 0x1B => []
    case 0x1C => []
    case 0x1D => []
    case 0x1E => [Field("isi_network_rssi_bars", 1, 1), Field("isi_network_rssi_db", 2, 1)]
    case 0x20 => [Field("isi_network_ciphering_status", 1, 1), Walk(3, NetworkSubpacket)]
    case 0x27 => []
    case 0x28 => []
    case 0x29 => []
    case 0x2C => [Walk(3, NetworkSubpacket)]
    case 0x2D => []
    case 0x2E => []
    case 0x31 => []
    case 0x32 => []
    case 0x33 => []
    case 0x34 => []
    case 0x35 => [Walk(3, NetworkSubpacket)]
    case 0x36 => [Field("isi_network_rat_type", 1, 1)]
    case 0x37 => [Field("isi_network_success_code", 1, 1), Walk(3, NetworkSubpacket)]
    case 0x38 => []
    case 0x39 => []
    case 0x3A => []
    case 0x3B =>
      [Field("isi_network_success_code", 1, 1), Field("isi_network_cs_state", 2, 1), Field("isi_network_cs_operation", 3, 1)]
    case 0x3C => []
    case 0x3D => []
    case 0x3E => []
    case 0x3F => []
    case 0x40 => []
    case 0x41 => []
    case 0x42 => [Walk(3, NetworkSubpacket)]
    case 0x43 => []
    case 0xE0 => []
    case 0xE1 => [Field("isi_network_success_code", 1, 1), Walk(3, NetworkSubpacket)]
    case 0xE2 => [Walk(3, NetworkSubpacket)]
    case 0xE3 => []
    case 0xE4 => []
    case 0xE5 => []
    case 0xE6 => []
    case _ => [Warning("unsupported packet")]
  }

  /** What dissect_isi_network appends for a payload; nothing without a tree. */
  function Events(tvb: seq<byte>, hasTree: bool): (r: seq<Event>)
    ensures !hasTree ==> r == []
    ensures hasTree ==> 1 <= |r| && r[0] == Field("isi_network_cmd", 0, 1)
    ensures hasTree && |tvb| == 0 ==> r == [Field("isi_network_cmd", 0, 1), Truncated(0)]
  {
    if !hasTree then []
    else if |tvb| == 0 then [Field("isi_network_cmd", 0, 1), Truncated(0)]
    else if tvb[0] == 0xF0 then [Field("isi_network_cmd", 0, 1)] + IsiCommon.Events("Network", tvb)
    else [Field("isi_network_cmd", 0, 1), Summary(CommandName(tvb[0]))] + CommandItems(tvb[0])
  }

  method Dissect(tvb: seq<byte>, hasTree: bool, out: Output)
    modifies out
    ensures out.events == old(out.events) + Events(tvb, hasTree)
  {
    if !hasTree {
      return;
    }
    out.Add(Field("isi_network_cmd", 0, 1));
    if |tvb| == 0 {
      out.Add(Truncated(0));
      return;
    }
    var cmd := tvb[0];
    if cmd == 0xF0 {
      IsiCommon.Dissect("Network", tvb, out);
      AppendAssoc(old(out.events), [Field("isi_network_cmd", 0, 1)], IsiCommon.Events("Network", tvb));
    } else {
      out.Add(Summary(CommandName(cmd)));
      var items := CommandItems(cmd);
      out.Append(items);
      AppendAssoc(old(out.events), [Field("isi_network_cmd", 0, 1), Summary(CommandName(cmd))], items);
    }
  }

  /** NET_RSSI_GET_REQ reads CS and measurement type and walks sub-blocks from offset 7. */
  lemma RssiGetRequest(tvb: seq<byte>)
    requires |tvb| > 0 && tvb[0] == 0x0B
    ensures Events(tvb, true) ==
      [Field("isi_network_cmd", 0, 1), Summary("Network RSSI Get Request"), Field("isi_network_cs_type", 1, 1),
       Field("isi_network_measurement_type", 2, 1), Walk(7, NetworkSubpacket)]
  {
  }

  /** Every other command that carries sub-blocks walks them from offset 3, as its last step. */
  lemma WalkFromThree(tvb: seq<byte>)
    requires |tvb| > 0 && Walks(tvb[0]) && tvb[0] != 0x0B
    ensures var r := Events(tvb, true); r[|r| - 1] == Walk(3, NetworkSubpacket)
  {
    LastItemWalks(tvb[0]);
  }

  lemma LastItemWalks(cmd: byte)
    requires Walks(cmd) && cmd != 0x0B
    ensures var t := CommandItems(cmd); |t| > 0 && t[|t| - 1] == Walk(3, NetworkSubpacket)
  {
  }

  /** Known commands without a decoder give their summary only, and no warning. */
  lemma SummaryOnlyCommands(tvb: seq<byte>)
    requires |tvb| > 0 && SummaryOnly(tvb[0])
    ensures Events(tvb, true) == [Field("isi_network_cmd", 0, 1), Summary(CommandName(tvb[0]))]
    ensures Quiet(Events(tvb, true))
  {
    NoItems(tvb[0]);
  }

  lemma NoItems(cmd: byte)
    requires SummaryOnly(cmd)
    ensures CommandItems(cmd) == []
  {
  }

  /** Only codes the decoder does not list give "unknown Network packet" and a warning. */
  lemma UnknownCommands(tvb: seq<byte>)
    requires |tvb| > 0 && !Decoded(tvb[0]) && tvb[0] != 0xF0
    ensures Events(tvb, true) ==
      [Field("isi_network_cmd", 0, 1), Summary("unknown Network packet"), Warning("unsupported packet")]
    ensures Warnings(Events(tvb, true)) == 1
  {
    OneWarning([Field("isi_network_cmd", 0, 1), Summary("unknown Network packet")], "unsupported packet", []);
  }

  /** The items of a listed command never hold a warning. */
  lemma ListedItemsQuiet(cmd: byte)
    requires Decoded(cmd)
    ensures Quiet(CommandItems(cmd))
  {
  }

  /**
   * A message warns exactly when its command is neither listed nor the
   * common message: the default case is the decoder's only warning.
   */
  lemma WarnsIffUnlisted(tvb: seq<byte>)
    requires |tvb| > 0
    ensures Warnings(Events(tvb, true)) > 0 <==> !Decoded(tvb[0]) && tvb[0] != 0xF0
  {
    var head := [Field("isi_network_cmd", 0, 1)];
    if tvb[0] == 0xF0 {
      WarningsAppend(head, IsiCommon.Events("Network", tvb));
    } else if Decoded(tvb[0]) {
      ListedItemsQuiet(tvb[0]);
      QuietAppend([Field("isi_network_cmd", 0, 1), Summary(CommandName(tvb[0]))], CommandItems(tvb[0]));
    } else {
      UnknownCommands(tvb);
    }
  }

  /** 0xF0 is handed to the common decoder under the name "Network". */
  lemma CommonMessage(tvb: seq<byte>)
    requires |tvb| > 0 && tvb[0] == 0xF0
    ensures Events(tvb, true) == [Field("isi_network_cmd", 0, 1)] + IsiCommon.Events("Network", tvb)
  {
  }
}
