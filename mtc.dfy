// Modem terminal control resource (isi-mtc.c): one switch on the command
// byte; each case adds its fields and then sets the summary.
module Mtc {
  import opened Wire
  import IsiCommon

  /** The resource id proto_reg_handoff_isi_mtc binds the decoder to. */
  const ResourceId: byte := 0x15

  /** Commands with a case of their own in dissect_isi_mtc. */
  predicate Decoded(cmd: byte)
  {
    cmd == 0x01 || cmd == 0x64 || cmd == 0x02 || cmd == 0x65 || cmd == 0x03 || cmd == 0x66
    || cmd == 0x0B || cmd == 0x6E || cmd == 0x12 || cmd == 0xC0 || cmd == 0xC2 || cmd == 0xF0
  }

  /** What a case adds after the command field, up to and including its summary. */
  function CommandEvents(cmd: byte): seq<Event>
  {
    match cmd
    case 0x01 => [Field("isi_mtc_target_state", 1, 1), Summary("MTC State")]
    case 0x64 => [Field("isi_mtc_status", 1, 1), Summary("MTC State")]
    case 0x02 => [Summary("MTC State Query")]
    case 0x65 => [Field("isi_mtc_current_state", 1, 1), Field("isi_mtc_target_state", 2, 1), Summary("MTC State Query")]
    case 0x03 => [Summary("MTC Power Off")]
    case 0x66 => [Field("isi_mtc_status", 1, 1), Summary("MTC Power Off")]
    case 0x0B => [Summary("MTC Startup Synq")]
    case 0x6E => [Field("isi_mtc_status", 1, 1), Summary("MTC Startup Synq")]
    case 0x12 => [Summary("MTC Shutdown Sync")]
    case 0xC0 => [Field("isi_mtc_current_state", 1, 1), Field("isi_mtc_action", 2, 1), Summary("MTC State Info Indication")]
    case 0xC2 => [Field("isi_mtc_current_state", 1, 1), Field("isi_mtc_action", 2, 1), Summary("MTC RF Status Info Indication")]
    case 0xF0 => [Summary("MTC Common Message")]
    case _ => [Summary("unknown MTC packet"), Warning("unsupported packet")]
  }

  /**
   * What dissect_isi_mtc appends for a payload; nothing without a tree.  A
   * common message sets its own summary and then hands over to the common
   * decoder, which sets a more precise one.
   */
  function Events(tvb: seq<byte>, hasTree: bool): (r: seq<Event>)
    ensures !hasTree ==> r == []
    ensures hasTree ==> 1 <= |r| && r[0] == Field("isi_mtc_cmd", 0, 1)
    ensures hasTree && |tvb| == 0 ==> r == [Field("isi_mtc_cmd", 0, 1), Truncated(0)]
  {
    if !hasTree then []
    else if |tvb| == 0 then [Field("isi_mtc_cmd", 0, 1), Truncated(0)]
    else if tvb[0] == 0xF0 then [Field("isi_mtc_cmd", 0, 1)] + CommandEvents(0xF0) + IsiCommon.Events("MTC", tvb)
    else [Field("isi_mtc_cmd", 0, 1)] + CommandEvents(tvb[0])
  }

  method Dissect(tvb: seq<byte>, hasTree: bool, out: Output)
    modifies out
    ensures out.events == old(out.events) + Events(tvb, hasTree)
  {
    if !hasTree {
      return;
    }
    var id := Field("isi_mtc_cmd", 0, 1);
    out.Add(id);
    if |tvb| == 0 {
      out.Add(Truncated(0));
      return;
    }
    var cmd := tvb[0];
    var items := CommandEvents(cmd);
    out.Append(items);
    AppendAssoc(old(out.events), [id], items);
    if cmd == 0xF0 {
      IsiCommon.Dissect("MTC", tvb, out);
      AppendAssoc(old(out.events), [id] + items, IsiCommon.Events("MTC", tvb));
    }
  }

  /** Each known command ends with its summary, and its fields lie within bytes 1 and 2. */
  lemma KnownCommands(cmd: byte)
    requires Decoded(cmd)
    ensures var es := CommandEvents(cmd);
      1 <= |es| <= 3 && es[|es| - 1].Summary? && Quiet(es)
      && forall i :: 0 <= i < |es| - 1 ==> es[i].Field? && 1 <= es[i].offset <= 2 && es[i].width == 1
  {
  }

  /** MTC_STATE_QUERY_RESP: current state at 1 and target state at 2. */
  lemma StateQueryResponse(tvb: seq<byte>)
    requires |tvb| > 0 && tvb[0] == 0x65
    ensures Events(tvb, true) ==
      [Field("isi_mtc_cmd", 0, 1), Field("isi_mtc_current_state", 1, 1), Field("isi_mtc_target_state", 2, 1),
       Summary("MTC State Query")]
  {
  }

  /** A request and its response share one summary. */
  lemma RequestResponseSummaries(cmd: byte)
    requires cmd == 0x01 || cmd == 0x02 || cmd == 0x03 || cmd == 0x0B
    ensures var resp := (if cmd == 0x0B then 0x6E else cmd + 0x63) as byte;
      CommandEvents(cmd)[|CommandEvents(cmd)| - 1] == CommandEvents(resp)[|CommandEvents(resp)| - 1]
  {
  }

  /** Unknown commands: "unknown MTC packet" and exactly one warning. */
  lemma UnknownCommands(tvb: seq<byte>)
    requires |tvb| > 0 && !Decoded(tvb[0])
    ensures Events(tvb, true) ==
      [Field("isi_mtc_cmd", 0, 1), Summary("unknown MTC packet"), Warning("unsupported packet")]
    ensures Warnings(Events(tvb, true)) == 1
  {
    OneWarning([Field("isi_mtc_cmd", 0, 1), Summary("unknown MTC packet")], "unsupported packet", []);
  }

  /** 0xF0: the local summary, then the common decoder for resource "MTC", whose summary is the last one. */
  lemma CommonMessage(tvb: seq<byte>)
    requires |tvb| >= 2 && tvb[0] == 0xF0
    ensures Events(tvb, true) ==
      [Field("isi_mtc_cmd", 0, 1), Summary("MTC Common Message")] + IsiCommon.Events("MTC", tvb)
    ensures Column(Events(tvb, true), "") == "MTC" + " Common Message: " + IsiCommon.SubCommandName(tvb[1])
  {
    var pre := [Field("isi_mtc_cmd", 0, 1), Summary("MTC Common Message")];
    var common := IsiCommon.Events("MTC", tvb);
    assert Events(tvb, true) == pre + common;
    ColumnAppend(pre, common, "");
    IsiCommon.ColumnText("MTC", tvb, Column(pre, ""));
  }
}
