// GSS resource (isi-gss.c): a command decoder that reads byte 1 for every
// message it knows, and handles common messages itself.
module Gss {
  import opened Wire

  /** The resource id proto_reg_handoff_isi_gss binds the decoder to. */
  const ResourceId: byte := 0x32

  /** Commands with a case of their own in dissect_isi_gss; each of them reads byte 1. */
  predicate ReadsCode(cmd: byte)
  {
    cmd == 0x00 || cmd == 0x01 || cmd == 0x02 || cmd == 0xF0
  }

  /** The items a case adds before it reads byte 1. */
  function Prefix(cmd: byte): seq<Event>
  {
    match cmd
    case 0x00 => [Field("isi_gss_operation", 1, 1)]
    case 0x02 => [Field("isi_gss_operation", 1, 1), Field("isi_gss_cause", 2, 1)]
    case 0xF0 => [Field("isi_gss_common_message_id", 1, 1)]
    case _ => []
  }

  /** The items a case adds once byte 1 (code) has been read, before it sets the summary. */
  function TailItems(cmd: byte, code: byte): seq<Event>
  {
    if cmd == 0x00 && code == 0x9C then [Field("isi_gss_subblock_count", 2, 1)] else []
  }

  /** The COL_INFO text each case sets last, chosen by the command and byte 1. */
  function TailName(cmd: byte, code: byte): string
  {
    match cmd
    case 0x00 =>
      if code == 0x0E then "Service Request: Radio Access Type Write"
      else if code == 0x9C then "Service Request: Radio Access Type Read"
      else "Service Request"
    case 0x01 => "Service Response"
    case 0x02 => if code == 0x9C then "Service Failed Response: Radio Access Type Read" else "Service Failed Response"
    case _ =>
      if code == 0x01 then "Common Message: Service Not Identified Response"
      else if code == 0x12 then "Common Message: ISI Version Get Request"
      else if code == 0x13 then "Common Message: ISI Version Get Response"
      else if code == 0x14 then "Common Message: ISA Entity Not Reachable"
      else "Common Message"
  }

  /** What a case adds once byte 1 has been read: its remaining items, then its summary. */
  function Tail(cmd: byte, code: byte): seq<Event>
  {
    TailItems(cmd, code) + [Summary(TailName(cmd, code))]
  }

  /** What dissect_isi_gss appends for a payload; nothing without a tree. */
  function Events(tvb: seq<byte>, hasTree: bool): (r: seq<Event>)
    ensures !hasTree ==> r == []
    ensures hasTree ==> 1 <= |r| && r[0] == Field("isi_gss_message_id", 0, 1)
    ensures hasTree && |tvb| == 0 ==> r == [Field("isi_gss_message_id", 0, 1), Truncated(0)]
  {
    if !hasTree then []
    else if |tvb| == 0 then [Field("isi_gss_message_id", 0, 1), Truncated(0)]
    else if !ReadsCode(tvb[0]) then [Field("isi_gss_message_id", 0, 1), Summary("Unknown type")]
    else if |tvb| < 2 then [Field("isi_gss_message_id", 0, 1)] + Prefix(tvb[0]) + [Truncated(1)]
    else [Field("isi_gss_message_id", 0, 1)] + Prefix(tvb[0]) + Tail(tvb[0], tvb[1])
  }

  method Dissect(tvb: seq<byte>, hasTree: bool, out: Output)
    modifies out
    ensures out.events == old(out.events) + Events(tvb, hasTree)
  {
    if !hasTree {
      return;
    }
    var id := Field("isi_gss_message_id", 0, 1);
    out.Add(id);
    if |tvb| == 0 {
      out.Add(Truncated(0));
      return;
    }
    var cmd := tvb[0];
    if !ReadsCode(cmd) {
      out.Add(Summary("Unknown type"));
      return;
    }
    var prefix := Prefix(cmd);
    out.Append(prefix);
    if |tvb| < 2 {
      out.Add(Truncated(1));
      AppendAssoc(old(out.events), [id], prefix);
      AppendAssoc(old(out.events), [id] + prefix, [Truncated(1)]);
      return;
    }
    var code := tvb[1];
    var tail := Tail(cmd, code);
    out.Append(tail);
    AppendAssoc(old(out.events), [id], prefix);
    AppendAssoc(old(out.events), [id] + prefix, tail);
  }

  /** GSS_CS_SERVICE_REQ: the operation at 1; a radio access type read (0x9C) adds the sub-block count at 2. */
  lemma ServiceRequest(tvb: seq<byte>)
    requires |tvb| >= 2 && tvb[0] == 0x00
    ensures tvb[1] == 0x9C ==>
      Events(tvb, true) ==
        [Field("isi_gss_message_id", 0, 1), Field("isi_gss_operation", 1, 1), Field("isi_gss_subblock_count", 2, 1),
         Summary("Service Request: Radio Access Type Read")]
    ensures tvb[1] != 0x9C ==>
      Events(tvb, true) ==
        [Field("isi_gss_message_id", 0, 1), Field("isi_gss_operation", 1, 1),
         Summary(if tvb[1] == 0x0E then "Service Request: Radio Access Type Write" else "Service Request")]
  {
  }

  /** GSS_CS_SERVICE_FAIL_RESP: operation at 1 and cause at 2. */
  lemma ServiceFailResponse(tvb: seq<byte>)
    requires |tvb| >= 2 && tvb[0] == 0x02
    ensures Events(tvb, true) ==
      [Field("isi_gss_message_id", 0, 1), Field("isi_gss_operation", 1, 1), Field("isi_gss_cause", 2, 1),
       Summary(if tvb[1] == 0x9C then "Service Failed Response: Radio Access Type Read" else "Service Failed Response")]
  {
  }

  /** 0xF0 is decoded here, not by the common decoder: the message id at 1 and a summary naming four sub-codes. */
  lemma CommonMessage(tvb: seq<byte>)
    requires |tvb| >= 2 && tvb[0] == 0xF0
    ensures Events(tvb, true) ==
      [Field("isi_gss_message_id", 0, 1), Field("isi_gss_common_message_id", 1, 1), Summary(TailName(0xF0, tvb[1]))]
    ensures !(tvb[1] == 0x01 || tvb[1] == 0x12 || tvb[1] == 0x13 || tvb[1] == 0x14) ==>
      TailName(0xF0, tvb[1]) == "Common Message"
  {
  }

  /** Unknown commands give "Unknown type" and no warning; byte 1 is not read. */
  lemma UnknownCommands(tvb: seq<byte>)
    requires |tvb| > 0 && !ReadsCode(tvb[0])
    ensures Events(tvb, true) == [Field("isi_gss_message_id", 0, 1), Summary("Unknown type")]
    ensures Quiet(Events(tvb, true))
  {
  }

  /** The GSS decoder never raises a warning. */
  lemma NeverWarns(tvb: seq<byte>, hasTree: bool)
    ensures Quiet(Events(tvb, hasTree))
  {
    if hasTree && |tvb| > 0 && ReadsCode(tvb[0]) {
      var id := [Field("isi_gss_message_id", 0, 1)];
      assert Quiet(Prefix(tvb[0]));
      QuietAppend(id, Prefix(tvb[0]));
      if |tvb| < 2 {
        QuietAppend(id + Prefix(tvb[0]), [Truncated(1)]);
      } else {
        assert Quiet(TailItems(tvb[0], tvb[1]));
        QuietAppend(TailItems(tvb[0], tvb[1]), [Summary(TailName(tvb[0], tvb[1]))]);
        QuietAppend(id + Prefix(tvb[0]), Tail(tvb[0], tvb[1]));
      }
    }
  }
}
