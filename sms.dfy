// SMS resource (isi-sms.c): a command decoder that looks at byte 1 as
// well, and handles common messages itself.
module Sms {
  import opened Wire

  /** The resource id proto_reg_handoff_isi_sms binds the decoder to. */
  const ResourceId: byte := 0x02

  /** Commands with a case of their own in dissect_isi_sms; each of them reads byte 1. */
  predicate ReadsCode(cmd: byte)
  {
    cmd == 0x03 || cmd == 0x06 || cmd == 0x07 || cmd == 0x0B || cmd == 0x0C || cmd == 0x22 || cmd == 0xF0
  }

  /** The items a case adds before it reads byte 1; after the read it only sets the summary. */
  function Prefix(cmd: byte): seq<Event>
  {
    match cmd
    case 0x03 => [Field("isi_sms_subblock_count", 2, 1)]
    case 0x06 => [Field("isi_sms_routing_command", 1, 1), Field("isi_sms_subblock_count", 2, 1)]
    case 0x0B => [Field("isi_sms_routing_command", 1, 1), Field("isi_sms_routing_mode", 2, 1)]
    case 0x22 => [Field("isi_sms_send_status", 1, 1), Field("isi_sms_route", 3, 1)]
    case 0xF0 => [Field("isi_sms_common_message_id", 1, 1)]
    case _ => []
  }

  /** The COL_INFO text each case sets, chosen by the command and byte 1. */
  function Name(cmd: byte, code: byte): string
  {
    match cmd
    case 0x03 => "SMS Message Send Response"
    case 0x06 => "SMS Point-to-Point Routing Request"
    case 0x07 => "SMS Point-to-Point Routing Response"
    case 0x0B =>
      if code == 0x00 then "SMS GSM Cell Broadcast Routing Release"
      else if code == 0x01 then "SMS GSM Cell Broadcast Routing Set"
      else "SMS GSM Cell Broadcast Routing Request"
    case 0x0C => "SMS GSM Cell Broadcast Routing Response"
    case 0x22 =>
      if code == 0x02 then "SMS Message Sending Status: Waiting for Network"
      else if code == 0x03 then "SMS Message Sending Status: Idle"
      else "SMS Message Sending Status Indication"
    case _ =>
      if code == 0x01 then "Common Message: Service Not Identified Response"
      else if code == 0x12 then "Common Message: ISI Version Get Request"
      else if code == 0x13 then "Common Message: ISI Version Get Response"
      else if code == 0x14 then "Common Message: ISA Entity Not Reachable"
      else "Common Message"
  }

  /** What dissect_isi_sms appends for a payload; nothing without a tree. */
  function Events(tvb: seq<byte>, hasTree: bool): (r: seq<Event>)
    ensures !hasTree ==> r == []
    ensures hasTree ==> 1 <= |r| && r[0] == Field("isi_sms_message_id", 0, 1)
    ensures hasTree && |tvb| == 0 ==> r == [Field("isi_sms_message_id", 0, 1), Truncated(0)]
  {
    if !hasTree then []
    else if |tvb| == 0 then [Field("isi_sms_message_id", 0, 1), Truncated(0)]
    else if !ReadsCode(tvb[0]) then [Field("isi_sms_message_id", 0, 1), Summary("Unknown type")]
    else if |tvb| < 2 then [Field("isi_sms_message_id", 0, 1)] + Prefix(tvb[0]) + [Truncated(1)]
    else [Field("isi_sms_message_id", 0, 1)] + Prefix(tvb[0]) + [Summary(Name(tvb[0], tvb[1]))]
  }

  method Dissect(tvb: seq<byte>, hasTree: bool, out: Output)
    modifies out
    ensures out.events == old(out.events) + Events(tvb, hasTree)
  {
    if !hasTree {
      return;
    }
    var id := Field("isi_sms_message_id", 0, 1);
    out.Add(id);
    if |tvb| == 0 {
      out.Add(Truncated(0));
      return;
    }
    var cmd := tvb[0];
    if !ReadsCode(cmd) {
      out.Add(Summary("Unknown type"));
      return;
    }
    var prefix := Prefix(cmd);
    out.Append(prefix);
    AppendAssoc(old(out.events), [id], prefix);
    if |tvb| < 2 {
      out.Add(Truncated(1));
      AppendAssoc(old(out.events), [id] + prefix, [Truncated(1)]);
      return;
    }
    var code := tvb[1];
    out.Add(Summary(Name(cmd, code)));
    AppendAssoc(old(out.events), [id] + prefix, [Summary(Name(cmd, code))]);
  }

  /** SMS_PP_ROUTING_REQ: routing command at 1 and sub-block count at 2. */
  lemma PointToPointRoutingRequest(tvb: seq<byte>)
    requires |tvb| >= 2 && tvb[0] == 0x06
    ensures Events(tvb, true) ==
      [Field("isi_sms_message_id", 0, 1), Field("isi_sms_routing_command", 1, 1),
       Field("isi_sms_subblock_count", 2, 1), Summary("SMS Point-to-Point Routing Request")]
  {
  }

  /** SMS_GSM_CB_ROUTING_REQ: command at 1 and mode at 2; byte 1 picks Release, Set or the generic summary. */
  lemma CellBroadcastRoutingRequest(tvb: seq<byte>)
    requires |tvb| >= 2 && tvb[0] == 0x0B
    ensures Events(tvb, true) ==
      [Field("isi_sms_message_id", 0, 1), Field("isi_sms_routing_command", 1, 1), Field("isi_sms_routing_mode", 2, 1),
       Summary(if tvb[1] == 0x00 then "SMS GSM Cell Broadcast Routing Release"
               else if tvb[1] == 0x01 then "SMS GSM Cell Broadcast Routing Set"
               else "SMS GSM Cell Broadcast Routing Request")]
  {
  }

  /** SMS_MESSAGE_SEND_STATUS_IND: send status at 1 and route at 3; nothing is shown at offset 2. */
  lemma SendStatusIndication(tvb: seq<byte>)
    requires |tvb| >= 2 && tvb[0] == 0x22
    ensures var r := Events(tvb, true);
      |r| == 4 && r[1] == Field("isi_sms_send_status", 1, 1) && r[2] == Field("isi_sms_route", 3, 1)
      && forall i :: 0 <= i < |r| && r[i].Field? ==> r[i].offset != 2
  {
  }

  /** 0xF0 is decoded here: the common message id at 1 and a summary naming four sub-codes. */
  lemma CommonMessage(tvb: seq<byte>)
    requires |tvb| >= 2 && tvb[0] == 0xF0
    ensures Events(tvb, true) ==
      [Field("isi_sms_message_id", 0, 1), Field("isi_sms_common_message_id", 1, 1), Summary(Name(0xF0, tvb[1]))]
    ensures !(tvb[1] == 0x01 || tvb[1] == 0x12 || tvb[1] == 0x13 || tvb[1] == 0x14) ==>
      Name(0xF0, tvb[1]) == "Common Message"
  {
  }

  /** Unknown commands give "Unknown type" and no warning; byte 1 is not read. */
  lemma UnknownCommands(tvb: seq<byte>)
    requires |tvb| > 0 && !ReadsCode(tvb[0])
    ensures Events(tvb, true) == [Field("isi_sms_message_id", 0, 1), Summary("Unknown type")]
    ensures Quiet(Events(tvb, true))
  {
  }

  /** The SMS decoder never raises a warning. */
  lemma NeverWarns(tvb: seq<byte>, hasTree: bool)
    ensures Quiet(Events(tvb, hasTree))
  {
    if hasTree && |tvb| > 0 && ReadsCode(tvb[0]) {
      var id := [Field("isi_sms_message_id", 0, 1)];
      assert Quiet(Prefix(tvb[0]));
      QuietAppend(id, Prefix(tvb[0]));
      if |tvb| < 2 {
        QuietAppend(id + Prefix(tvb[0]), [Truncated(1)]);
      } else {
        QuietAppend(id + Prefix(tvb[0]), [Summary(Name(tvb[0], tvb[1]))]);
      }
    }
  }
}
