// SIM resource (isi-sim.c): a command decoder that looks at byte 1 as
// well, and handles common messages itself.
module Sim {
  import opened Wire

  /** The resource id proto_reg_handoff_isi_sim binds the decoder to. */
  const ResourceId: byte := 0x09

  /** Commands with a case of their own in dissect_isi_sim; each of them reads byte 1. */
  predicate ReadsCode(cmd: byte)
  {
    cmd == 0x19 || cmd == 0x1A || cmd == 0x1D || cmd == 0x1E || cmd == 0x21 || cmd == 0x22 || cmd == 0xBA
    || cmd == 0xBB || cmd == 0xBC || cmd == 0xBD || cmd == 0xDC || cmd == 0xDD || cmd == 0xEF || cmd == 0xF0
  }

  /** The items a case adds before it reads byte 1. */
  function Prefix(cmd: byte): seq<Event>
  {
    match cmd
    case 0x1A => [Field("isi_sim_service_type", 1, 1), Field("isi_sim_cause", 2, 1)]
    case 0x22 => []
    case 0xEF => []
    case 0xF0 => [Field("isi_sim_cause", 1, 1), Field("isi_sim_secondary_cause", 2, 1)]
    case _ => [Field("isi_sim_service_type", 1, 1)]
  }

  /** The items a case adds once byte 1 (code) has been read, before it sets the summary. */
  function TailItems(cmd: byte, code: byte): seq<Event>
  {
    match cmd
    case 0x1A =>
      if code == 0x2F then [Field("isi_sim_hlpmn_countries", 3, 2), Field("isi_sim_hlpmn_operators", 5, 1)] else []
    case 0x22 => [Field("isi_sim_cause", 1, 1), Field("isi_sim_secondary_cause", 2, 1)]
    case 0xBB => if code == 0x66 then [Field("isi_sim_cause", 2, 1)] else []
    case _ => []
  }

  /** The COL_INFO text each case sets last, chosen by the command and byte 1. */
  function TailName(cmd: byte, code: byte): string
  {
    match cmd
    case 0x19 => if code == 0x2F then "Network Information Request: Read Home PLMN" else "Network Information Request"
    case 0x1A => if code == 0x2F then "Network Information Response: Home PLMN" else "Network Information Response"
    case 0x1D => "Read IMSI Request"
    case 0x1E => "Read IMSI Response"
    case 0x21 => "Service Provider Name Request"
    case 0x22 => "Service Provider Name Response: Invalid Location"
    case 0xBA =>
      if code == 0x66 then "Read Field Request: Integrated Circuit Card Identification (ICCID)" else "Read Field Request"
    case 0xBB =>
      if code == 0x66 then "Read Field Response: Integrated Circuit Card Identification (ICCID)"
      else "Read Field Response"
    case 0xBC => "SMS Request"
    case 0xBD => "SMS Response"
    case 0xDC => "Phonebook Read Request"
    case 0xDD => "Phonebook Read Response"
    case 0xEF => "Indicator"
    case _ =>
      if code == 0x00 then "Common Message: SIM Server Not Available"
      else if code == 0x12 then "Common Message: PIN Enable OK"
      else "Common Message"
  }

  /** What a case adds once byte 1 has been read: its remaining items, then its summary. */
  function Tail(cmd: byte, code: byte): seq<Event>
  {
    TailItems(cmd, code) + [Summary(TailName(cmd, code))]
  }

  /** What dissect_isi_sim appends for a payload; nothing without a tree. */
  function Events(tvb: seq<byte>, hasTree: bool): (r: seq<Event>)
    ensures !hasTree ==> r == []
    ensures hasTree ==> 1 <= |r| && r[0] == Field("isi_sim_message_id", 0, 1)
    ensures hasTree && |tvb| == 0 ==> r == [Field("isi_sim_message_id", 0, 1), Truncated(0)]
  {
    if !hasTree then []
    else if |tvb| == 0 then [Field("isi_sim_message_id", 0, 1), Truncated(0)]
    else if !ReadsCode(tvb[0]) then [Field("isi_sim_message_id", 0, 1), Summary("Unknown type")]
    else if |tvb| < 2 then [Field("isi_sim_message_id", 0, 1)] + Prefix(tvb[0]) + [Truncated(1)]
    else [Field("isi_sim_message_id", 0, 1)] + Prefix(tvb[0]) + Tail(tvb[0], tvb[1])
  }

  method Dissect(tvb: seq<byte>, hasTree: bool, out: Output)
    modifies out
    ensures out.events == old(out.events) + Events(tvb, hasTree)
  {
    if !hasTree {
      return;
    }
    var id := Field("isi_sim_message_id", 0, 1);
    out.Add(id);
    if |tvb| == 0 {
      out.Add(Truncated(0));
      return;
    }
    var cmd := tvb[0];
    if !ReadsCode(cmd) {
      out.Add(Summary("Unknown type"));
      return;
    }
    var prefix := Prefix(cmd);
    out.Append(prefix);
    if |tvb| < 2 {
      out.Add(Truncated(1));
      AppendAssoc(old(out.events), [id], prefix);
      AppendAssoc(old(out.events), [id] + prefix, [Truncated(1)]);
      return;
    }
    var code := tvb[1];
    var tail := Tail(cmd, code);
    out.Append(tail);
    AppendAssoc(old(out.events), [id], prefix);
    AppendAssoc(old(out.events), [id] + prefix, tail);
  }

  /** SIM_NETWORK_INFO_REQ: service type at 1; the summary names the home PLMN read when byte 1 is 0x2F. */
  lemma NetworkInfoRequest(tvb: seq<byte>)
    requires |tvb| >= 2 && tvb[0] == 0x19
    ensures Events(tvb, true) ==
      [Field("isi_sim_message_id", 0, 1), Field("isi_sim_service_type", 1, 1),
       Summary(if tvb[1] == 0x2F then "Network Information Request: Read Home PLMN" else "Network Information Request")]
  {
  }

  /** SIM_NETWORK_INFO_RESP: service type and cause; country (u16 at 3) and operator (at 5) only for 0x2F. */
  lemma NetworkInfoResponse(tvb: seq<byte>)
    requires |tvb| >= 2 && tvb[0] == 0x1A
    ensures tvb[1] == 0x2F ==>
      Events(tvb, true) ==
        [Field("isi_sim_message_id", 0, 1), Field("isi_sim_service_type", 1, 1), Field("isi_sim_cause", 2, 1),
         Field("isi_sim_hlpmn_countries", 3, 2), Field("isi_sim_hlpmn_operators", 5, 1),
         Summary("Network Information Response: Home PLMN")]
    ensures tvb[1] != 0x2F ==>
      Events(tvb, true) ==
        [Field("isi_sim_message_id", 0, 1), Field("isi_sim_service_type", 1, 1), Field("isi_sim_cause", 2, 1),
         Summary("Network Information Response")]
  {
  }

  /** SIM_SERV_PROV_NAME_RESP: cause and secondary cause, summarised as an invalid location whatever byte 1 is. */
  lemma ServiceProviderNameResponse(tvb: seq<byte>)
    requires |tvb| >= 2 && tvb[0] == 0x22
    ensures Events(tvb, true) ==
      [Field("isi_sim_message_id", 0, 1), Field("isi_sim_cause", 1, 1), Field("isi_sim_secondary_cause", 2, 1),
       Summary("Service Provider Name Response: Invalid Location")]
  {
  }

  /** 0xF0 is decoded here, not by the common decoder: cause, secondary cause, and a summary chosen by byte 1. */
  lemma CommonMessage(tvb: seq<byte>)
    requires |tvb| >= 2 && tvb[0] == 0xF0
    ensures Events(tvb, true) ==
      [Field("isi_sim_message_id", 0, 1), Field("isi_sim_cause", 1, 1), Field("isi_sim_secondary_cause", 2, 1),
       Summary(if tvb[1] == 0x00 then "Common Message: SIM Server Not Available"
               else if tvb[1] == 0x12 then "Common Message: PIN Enable OK"
               else "Common Message")]
  {
  }

  /** Unknown commands give "Unknown type" and no warning; byte 1 is not read. */
  lemma UnknownCommands(tvb: seq<byte>)
    requires |tvb| > 0 && !ReadsCode(tvb[0])
    ensures Events(tvb, true) == [Field("isi_sim_message_id", 0, 1), Summary("Unknown type")]
    ensures Quiet(Events(tvb, true))
  {
  }

  /** A one-byte message of a known command shows what precedes the read of byte 1, then stops. */
  lemma OneByteMessage(tvb: seq<byte>)
    requires |tvb| == 1 && ReadsCode(tvb[0])
    ensures var r := Events(tvb, true); r[|r| - 1] == Truncated(1) && Summary("Unknown type") !in r
  {
  }

  /** The SIM decoder never raises a warning. */
  lemma NeverWarns(tvb: seq<byte>, hasTree: bool)
    ensures Quiet(Events(tvb, hasTree))
  {
    if hasTree && |tvb| > 0 && ReadsCode(tvb[0]) {
      var id := [Field("isi_sim_message_id", 0, 1)];
      PrefixQuiet(tvb[0]);
      QuietAppend(id, Prefix(tvb[0]));
      if |tvb| < 2 {
        QuietAppend(id + Prefix(tvb[0]), [Truncated(1)]);
      } else {
        TailQuiet(tvb[0], tvb[1]);
        QuietAppend(id + Prefix(tvb[0]), Tail(tvb[0], tvb[1]));
      }
    }
  }

  lemma PrefixQuiet(cmd: byte)
    ensures Quiet(Prefix(cmd))
  {
  }

  lemma TailQuiet(cmd: byte, code: byte)
    ensures Quiet(Tail(cmd, code))
  {
    assert Quiet(TailItems(cmd, code));
    QuietAppend(TailItems(cmd, code), [Summary(TailName(cmd, code))]);
  }
}
