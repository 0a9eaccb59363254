// Supplementary services resource (isi-ss.c): a command decoder that reads
// byte 1 for every message it knows.
module Ss {
  import opened Wire

  /** The resource id proto_reg_handoff_isi_ss binds the decoder to. */
  const ResourceId: byte := 0x06

  /** Commands with a case of their own in dissect_isi_ss; each of them reads byte 1. */
  predicate ReadsCode(cmd: byte)
  {
    cmd == 0x00 || cmd == 0x01 || cmd == 0x02 || cmd == 0x04 || cmd == 0x05 || cmd == 0x06
    || cmd == 0x09 || cmd == 0x10 || cmd == 0xF0
  }

  /** The items a case adds before it reads byte 1; after the read it only sets the summary. */
  function Prefix(cmd: byte): seq<Event>
  {
    match cmd
    case 0x00 => [Field("isi_ss_operation", 1, 1)]
    case 0x04 => [Field("isi_ss_ussd_type", 1, 1), Field("isi_ss_subblock_count", 2, 1), Field("isi_ss_subblock", 3, 1)]
    case _ => []
  }

  /** The COL_INFO text each case sets; only SS_SERVICE_REQ looks at the value of byte 1. */
  function Name(cmd: byte, code: byte): string
  {
    match cmd
    case 0x00 =>
      if code == 0x05 then "Service Request: Call Barring Interrogation"
      else if code == 0x06 then "Service Request: GSM Password Registration"
      else "Service Request"
    case 0x01 => "Service Completed Response"
    case 0x02 => "Service Failed Response"
    case 0x04 => "GSM USSD Message Send Request"
    case 0x05 => "GSM USSD Message Send Response"
    case 0x06 => "GSM USSD Message Received Indication"
    case 0x09 => "Status Indication"
    case 0x10 => "Service Completed Indication"
    case _ => "Common Message"
  }

  /** What dissect_isi_ss appends for a payload; nothing without a tree. */
  function Events(tvb: seq<byte>, hasTree: bool): (r: seq<Event>)
    ensures !hasTree ==> r == []
    ensures hasTree ==> 1 <= |r| && r[0] == Field("isi_ss_message_id", 0, 1)
    ensures hasTree && |tvb| == 0 ==> r == [Field("isi_ss_message_id", 0, 1), Truncated(0)]
  {
    if !hasTree then []
    else if |tvb| == 0 then [Field("isi_ss_message_id", 0, 1), Truncated(0)]
    else if !ReadsCode(tvb[0]) then [Field("isi_ss_message_id", 0, 1), Summary("Unknown type")]
    else if |tvb| < 2 then [Field("isi_ss_message_id", 0, 1)] + Prefix(tvb[0]) + [Truncated(1)]
    else [Field("isi_ss_message_id", 0, 1)] + Prefix(tvb[0]) + [Summary(Name(tvb[0], tvb[1]))]
  }

  method Dissect(tvb: seq<byte>, hasTree: bool, out: Output)
    modifies out
    ensures out.events == old(out.events) + Events(tvb, hasTree)
  {
    if !hasTree {
      return;
    }
    var id := Field("isi_ss_message_id", 0, 1);
    out.Add(id);
    if |tvb| == 0 {
      out.Add(Truncated(0));
      return;
    }
    var cmd := tvb[0];
    if !ReadsCode(cmd) {
      out.Add(Summary("Unknown type"));
      return;
    }
    var prefix := Prefix(cmd);
    out.Append(prefix);
    AppendAssoc(old(out.events), [id], prefix);
    if |tvb| < 2 {
      out.Add(Truncated(1));
      AppendAssoc(old(out.events), [id] + prefix, [Truncated(1)]);
      return;
    }
    var code := tvb[1];
    out.Add(Summary(Name(cmd, code)));
    AppendAssoc(old(out.events), [id] + prefix, [Summary(Name(cmd, code))]);
  }

  /** SS_SERVICE_REQ: the operation at 1, which also picks the summary. */
  lemma ServiceRequest(tvb: seq<byte>)
    requires |tvb| >= 2 && tvb[0] == 0x00
    ensures Events(tvb, true) ==
      [Field("isi_ss_message_id", 0, 1), Field("isi_ss_operation", 1, 1),
       Summary(if tvb[1] == 0x05 then "Service Request: Call Barring Interrogation"
               else if tvb[1] == 0x06 then "Service Request: GSM Password Registration"
               else "Service Request")]
  {
  }

  /** SS_GSM_USSD_SEND_REQ: USSD type, sub-block count and first sub-block id at 1, 2 and 3. */
  lemma UssdSendRequest(tvb: seq<byte>)
    requires |tvb| >= 2 && tvb[0] == 0x04
    ensures Events(tvb, true) ==
      [Field("isi_ss_message_id", 0, 1), Field("isi_ss_ussd_type", 1, 1), Field("isi_ss_subblock_count", 2, 1),
       Field("isi_ss_subblock", 3, 1), Summary("GSM USSD Message Send Request")]
  {
  }

  /** The other known commands show nothing but their summary, whatever byte 1 holds. */
  lemma SummaryOnly(tvb: seq<byte>)
    requires |tvb| >= 2 && ReadsCode(tvb[0]) && tvb[0] != 0x00 && tvb[0] != 0x04
    ensures Events(tvb, true) == [Field("isi_ss_message_id", 0, 1), Summary(Name(tvb[0], 0))]
  {
  }

  /** A known command whose byte 1 is missing stops at that read, after its prefix items. */
  lemma TruncatedCode(tvb: seq<byte>)
    requires |tvb| == 1 && ReadsCode(tvb[0])
    ensures var r := Events(tvb, true);
      r[|r| - 1] == Truncated(1) && forall i :: 0 <= i < |r| ==> !r[i].Summary?
  {
  }

  /** Unknown commands give "Unknown type" and no warning; byte 1 is not read. */
  lemma UnknownCommands(tvb: seq<byte>)
    requires |tvb| > 0 && !ReadsCode(tvb[0])
    ensures Events(tvb, true) == [Field("isi_ss_message_id", 0, 1), Summary("Unknown type")]
    ensures Quiet(Events(tvb, true))
  {
  }

  /** The SS decoder never raises a warning. */
  lemma NeverWarns(tvb: seq<byte>, hasTree: bool)
    ensures Quiet(Events(tvb, hasTree))
  {
    if hasTree && |tvb| > 0 && ReadsCode(tvb[0]) {
      var id := [Field("isi_ss_message_id", 0, 1)];
      assert Quiet(Prefix(tvb[0]));
      QuietAppend(id, Prefix(tvb[0]));
      if |tvb| < 2 {
        QuietAppend(id + Prefix(tvb[0]), [Truncated(1)]);
      } else {
        QuietAppend(id + Prefix(tvb[0]), [Summary(Name(tvb[0], tvb[1]))]);
      }
    }
  }
}
