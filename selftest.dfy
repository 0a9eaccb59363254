// Self-test resource (isi-selftest.c): command decoder and sub-block reader.
module Selftest {
  import opened Wire
  import IsiCommon

  /** The resource id proto_reg_handoff_isi_selftest binds the decoder to (the handoff itself is never called). */
  const ResourceId: byte := 0x35

  /** What dissect_isi_selftest_subblock appends: _sub_result for 0x01, otherwise one warning. */
  function SubblockEvents(sptype: byte): seq<Event>
  {
    if sptype == 0x01 then [Field("isi_selftest_id", 2, 1), Field("isi_selftest_status", 3, 1)]
    else [Warning("unsupported packet")]
  }

  method Subblock(sptype: byte, tvb: seq<byte>, out: Output)
    modifies out
    ensures out.events == old(out.events) + SubblockEvents(sptype)
  {
    if sptype == 0x01 {
      out.Append([Field("isi_selftest_id", 2, 1), Field("isi_selftest_status", 3, 1)]);
    } else {
      out.Add(Warning("unsupported packet"));
    }
  }

  /** Only the result sub-block is decoded (test id at 2, status at 3); every other type warns once. */
  lemma SubblockResult(sptype: byte)
    ensures sptype == 0x01 ==> SubblockEvents(sptype) == [Field("isi_selftest_id", 2, 1), Field("isi_selftest_status", 3, 1)]
    ensures sptype == 0x01 ==> Quiet(SubblockEvents(sptype))
    ensures sptype != 0x01 ==> |SubblockEvents(sptype)| == 1 && Warnings(SubblockEvents(sptype)) == 1
  {
    if sptype != 0x01 {
      OneWarning([], "unsupported packet", []);
    }
  }

  /** The COL_INFO text each case of dissect_isi_selftest sets before anything else. */
  function CommandName(cmd: byte): string
  {
    if cmd > 0x0B then "unhandled Selftest packet"
    else match cmd
    case 0x00 => "Selftest Run Request"
    case 0x01 => "Selftest Run Response"
    case 0x02 => "Selftest Results Get Request"
    case 0x03 => "Selftest Results Get Response"
    case 0x04 => "Selftest List Get Request"
    case 0x05 => "Selftest List Get Response"
    case 0x06 => "Selftest Names Get Request"
    case 0x07 => "Selftest Names Get Response"
    case 0x08 => "Selftest Detailed Results Get Request"
    case 0x09 => "Selftest Detailed Results Get Response"
    case 0x0A => "Selftest Product Test Request"
    case 0x0B => "Selftest Product Test Response"
    case _ => "unhandled Selftest packet"
  }

  /** The items each case of dissect_isi_selftest adds after its summary. */
  function CommandItems(cmd: byte): seq<Event>
  {
    match cmd
    case 0x00 => [Field("isi_selftest_type", 1, 1), Walk(3, SelftestSubblock)]
    case 0x01 => [Field("isi_selftest_status", 1, 1), Walk(3, SelftestSubblock)]
    case 0x02 => [Field("isi_selftest_type", 1, 1), Walk(3, SelftestSubblock)]
    case 0x03 => [Field("isi_selftest_status", 1, 1), Walk(3, SelftestSubblock)]
    case _ => [Warning("unsupported packet")]
  }

  /** What dissect_isi_selftest appends for a payload; nothing without a tree. */
  function Events(tvb: seq<byte>, hasTree: bool): (r: seq<Event>)
    ensures !hasTree ==> r == []
    ensures hasTree ==> 1 <= |r| && r[0] == Field("isi_selftest_cmd", 0, 1)
    ensures hasTree && |tvb| == 0 ==> r == [Field("isi_selftest_cmd", 0, 1), Truncated(0)]
  {
    if !hasTree then []
    else if |tvb| == 0 then [Field("isi_selftest_cmd", 0, 1), Truncated(0)]
    else if tvb[0] == 0xF0 then [Field("isi_selftest_cmd", 0, 1)] + IsiCommon.Events("Selftest", tvb)
    else [Field("isi_selftest_cmd", 0, 1), Summary(CommandName(tvb[0]))] + CommandItems(tvb[0])
  }

  method Dissect(tvb: seq<byte>, hasTree: bool, out: Output)
    modifies out
    ensures out.events == old(out.events) + Events(tvb, hasTree)
  {
    if !hasTree {
      return;
    }
    out.Add(Field("isi_selftest_cmd", 0, 1));
    if |tvb| == 0 {
      out.Add(Truncated(0));
      return;
    }
    var cmd := tvb[0];
    if cmd == 0xF0 {
      IsiCommon.Dissect("Selftest", tvb, out);
      AppendAssoc(old(out.events), [Field("isi_selftest_cmd", 0, 1)], IsiCommon.Events("Selftest", tvb));
    } else {
      out.Add(Summary(CommandName(cmd)));
      var items := CommandItems(cmd);
      out.Append(items);
      AppendAssoc(old(out.events), [Field("isi_selftest_cmd", 0, 1), Summary(CommandName(cmd))], items);
    }
  }

  /** Run and results-get requests show the test type at 1, responses the status; all four walk from 3. */
  lemma RunAndResults(tvb: seq<byte>)
    requires |tvb| > 0 && tvb[0] <= 0x03
    ensures Events(tvb, true) ==
      [Field("isi_selftest_cmd", 0, 1), Summary(CommandName(tvb[0])),
       Field(if tvb[0] % 2 == 0 then "isi_selftest_type" else "isi_selftest_status", 1, 1),
       Walk(3, SelftestSubblock)]
  {
  }

  /** The listed commands 0x04-0x0B keep a summary of their own and still warn once. */
  lemma NamedButUnsupported(tvb: seq<byte>)
    requires |tvb| > 0 && 0x04 <= tvb[0] <= 0x0B
    ensures Events(tvb, true) ==
      [Field("isi_selftest_cmd", 0, 1), Summary(CommandName(tvb[0])), Warning("unsupported packet")]
    ensures Warnings(Events(tvb, true)) == 1
  {
    OneWarning([Field("isi_selftest_cmd", 0, 1), Summary(CommandName(tvb[0]))], "unsupported packet", []);
  }

  /** Codes past 0x0B (0xF0 aside) give "unhandled Selftest packet" and one warning. */
  lemma UnhandledCommands(tvb: seq<byte>)
    requires |tvb| > 0 && tvb[0] > 0x0B && tvb[0] != 0xF0
    ensures Events(tvb, true) ==
      [Field("isi_selftest_cmd", 0, 1), Summary("unhandled Selftest packet"), Warning("unsupported packet")]
    ensures Warnings(Events(tvb, true)) == 1
  {
    OneWarning([Field("isi_selftest_cmd", 0, 1), Summary("unhandled Selftest packet")], "unsupported packet", []);
  }

  /** 0xF0 is handed to the common decoder under the name "Selftest". */
  lemma CommonMessage(tvb: seq<byte>)
    requires |tvb| > 0 && tvb[0] == 0xF0
    ensures Events(tvb, true) == [Field("isi_selftest_cmd", 0, 1)] + IsiCommon.Events("Selftest", tvb)
  {
  }
}
