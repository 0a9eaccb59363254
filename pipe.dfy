// Pipe service resource (isi-pipe.c): command decoder and sub-block reader.
module Pipe {
  import opened Wire
  import IsiCommon

  /** The resource id proto_reg_handoff_isi_pipe binds the decoder to (the handoff itself is never called). */
  const ResourceId: byte := 0xD9

  /** What dissect_isi_pipe_subblock appends: one warning for every type, named in its switch or not. */
  function SubblockEvents(sptype: byte): seq<Event>
  {
    [Warning("unsupported subblock")]
  }

  method Subblock(sptype: byte, tvb: seq<byte>, out: Output)
    modifies out
    ensures out.events == old(out.events) + SubblockEvents(sptype)
  {
    out.Add(Warning("unsupported subblock"));
  }

  /** The pipe sub-block reader decodes nothing and warns exactly once. */
  lemma SubblockAlwaysWarns(sptype: byte)
    ensures |SubblockEvents(sptype)| == 1 && Warnings(SubblockEvents(sptype)) == 1
  {
    OneWarning([], "unsupported subblock", []);
  }

  /** Commands with a case of their own in dissect_isi_pipe (0xF0 aside). */
  predicate Decoded(cmd: byte)
  {
    cmd == 0x00 || cmd == 0x01 || cmd == 0x06 || cmd == 0x07 || cmd == 0x20 || cmd == 0x40 || cmd == 0x41
    || cmd == 0x46 || cmd == 0x47 || cmd == 0x60 || cmd == 0x61 || cmd == 0x64
  }

  /** The COL_INFO text each case of dissect_isi_pipe sets before anything else. */
  function CommandName(cmd: byte): string
  {
    match cmd
    case 0x00 => "Pipe Create Request"
    case 0x01 => "Pipe Create Response"
    case 0x06 => "Pipe Enable Request"
    case 0x07 => "Pipe Enable Response"
    case 0x20 => "Pipe Data"
    case 0x40 => "PEP Connect Request"
    case 0x41 => "PEP Connect Response"
    case 0x46 => "PEP Enable Request"
    case 0x47 => "PEP Enable Response"
    case 0x60 => "PEP Status Indiciation"
    case 0x61 => "Pipe Created Indiciation"
    case 0x64 => "Pipe Enabled Indiciation"
    case _ => "unhandled Pipe packet"
  }

  /** Handle, error and the two PEP errors, as both create and enable responses show them. */
  function HandleAndErrors(): (r: seq<Event>)
    ensures |r| == 4 && forall i :: 0 <= i < 4 ==> r[i].Field? && r[i].offset == i + 1 && r[i].width == 1
  {
    [Field("isi_pipe_handle", 1, 1), Field("isi_pipe_error", 2, 1),
     Field("isi_pipe_pep1_error", 3, 1), Field("isi_pipe_pep2_error", 4, 1)]
  }

  /** The items each case of dissect_isi_pipe adds after its summary. */
  function CommandItems(cmd: byte): seq<Event>
  {
    match cmd
    case 0x00 =>
      [Field("isi_pipe_pipe_state_after", 1, 1), Field("isi_pipe_priority", 2, 1),
       Field("isi_pipe_first_pep_dev", 3, 1), Field("isi_pipe_first_pep_obj", 4, 1),
       Field("isi_pipe_first_pep_type", 5, 1), Field("isi_pipe_second_pep_dev", 7, 1),
       Field("isi_pipe_second_pep_obj", 8, 1), Field("isi_pipe_second_pep_type", 9, 1),
       Walk(11, PipeSubblock)]
    case 0x01 => HandleAndErrors()
    case 0x06 => [Field("isi_pipe_handle", 1, 1)]
    case 0x07 => HandleAndErrors()
    case 0x20 => []
    case 0x40 =>
      [Field("isi_pipe_handle", 1, 1), Field("isi_pipe_pep_state_after", 2, 1),
       Field("isi_pipe_other_pep_type", 3, 1), Walk(7, PipeSubblock)]
    case 0x41 => [Field("isi_pipe_handle", 1, 1), Field("isi_pipe_error", 2, 1), Walk(7, PipeSubblock)]
    case 0x46 => [Field("isi_pipe_handle", 1, 1)]
    case 0x47 => [Field("isi_pipe_handle", 1, 1), Field("isi_pipe_error", 2, 1)]
    case 0x60 =>
      [Field("isi_pipe_handle", 1, 1), Field("isi_pipe_pep_type", 2, 1), Field("isi_pipe_indication_id", 3, 1)]
    case 0x61 => [Field("isi_pipe_handle", 1, 1), Walk(3, PipeSubblock)]
    case 0x64 => [Field("isi_pipe_handle", 1, 1)]
    case _ => [Warning("unsupported packet")]
  }

  /** What dissect_isi_pipe appends for a payload; nothing without a tree. */
  function Events(tvb: seq<byte>, hasTree: bool): (r: seq<Event>)
    ensures !hasTree ==> r == []
    ensures hasTree ==> 1 <= |r| && r[0] == Field("isi_pipe_cmd", 0, 1)
    ensures hasTree && |tvb| == 0 ==> r == [Field("isi_pipe_cmd", 0, 1), Truncated(0)]
  {
    if !hasTree then []
    else if |tvb| == 0 then [Field("isi_pipe_cmd", 0, 1), Truncated(0)]
    else if tvb[0] == 0xF0 then [Field("isi_pipe_cmd", 0, 1)] + IsiCommon.Events("PIPE", tvb)
    else [Field("isi_pipe_cmd", 0, 1), Summary(CommandName(tvb[0]))] + CommandItems(tvb[0])
  }

  method Dissect(tvb: seq<byte>, hasTree: bool, out: Output)
    modifies out
    ensures out.events == old(out.events) + Events(tvb, hasTree)
  {
    if !hasTree {
      return;
    }
    out.Add(Field("isi_pipe_cmd", 0, 1));
    if |tvb| == 0 {
      out.Add(Truncated(0));
      return;
    }
    var cmd := tvb[0];
    if cmd == 0xF0 {
      IsiCommon.Dissect("PIPE", tvb, out);
      AppendAssoc(old(out.events), [Field("isi_pipe_cmd", 0, 1)], IsiCommon.Events("PIPE", tvb));
    } else {
      out.Add(Summary(CommandName(cmd)));
      var items := CommandItems(cmd);
      out.Append(items);
      AppendAssoc(old(out.events), [Field("isi_pipe_cmd", 0, 1), Summary(CommandName(cmd))], items);
    }
  }

  /** PNS_PIPE_CREATE_REQ: eight one-byte fields at 1-5 and 7-9 (offset 6 is skipped), then sub-blocks from 11. */
  lemma CreateRequest(tvb: seq<byte>)
    requires |tvb| > 0 && tvb[0] == 0x00
    ensures var r := Events(tvb, true);
      |r| == 11 && r[10] == Walk(11, PipeSubblock)
      && (forall i :: 2 <= i < 10 ==> r[i].Field? && r[i].width == 1 && r[i].offset != 6)
      && r[2].offset == 1 && r[6].offset == 5 && r[7].offset == 7 && r[9].offset == 9
  {
  }

  /** PEP connect request and response walk from offset 7; PIPE_CREATED_IND walks from offset 3. */
  lemma WalkOffsets(tvb: seq<byte>)
    requires |tvb| > 0 && (tvb[0] == 0x40 || tvb[0] == 0x41 || tvb[0] == 0x61)
    ensures var r := Events(tvb, true);
      r[|r| - 1] == Walk(if tvb[0] == 0x61 then 3 else 7, PipeSubblock)
  {
  }

  /** Create and enable responses show handle at 1, error at 2 and the PEP errors at 3 and 4. */
  lemma Responses(tvb: seq<byte>)
    requires |tvb| > 0 && (tvb[0] == 0x01 || tvb[0] == 0x07)
    ensures Events(tvb, true) ==
      [Field("isi_pipe_cmd", 0, 1), Summary(CommandName(tvb[0])),
       Field("isi_pipe_handle", 1, 1), Field("isi_pipe_error", 2, 1),
       Field("isi_pipe_pep1_error", 3, 1), Field("isi_pipe_pep2_error", 4, 1)]
  {
  }

  /** Listed-but-undecoded and unknown commands alike give "unhandled Pipe packet" and one warning. */
  lemma UnhandledCommands(tvb: seq<byte>)
    requires |tvb| > 0 && !Decoded(tvb[0]) && tvb[0] != 0xF0
    ensures Events(tvb, true) ==
      [Field("isi_pipe_cmd", 0, 1), Summary("unhandled Pipe packet"), Warning("unsupported packet")]
    ensures Warnings(Events(tvb, true)) == 1
  {
    OneWarning([Field("isi_pipe_cmd", 0, 1), Summary("unhandled Pipe packet")], "unsupported packet", []);
  }

  /** Every command with a case of its own decodes without a warning. */
  lemma ListedQuiet(tvb: seq<byte>)
    requires |tvb| > 0 && Decoded(tvb[0])
    ensures Quiet(Events(tvb, true))
  {
  }

  /**
   * A message warns exactly when its command is neither listed nor the
   * common message: the default case is the decoder's only warning.
   */
  lemma WarnsIffUnlisted(tvb: seq<byte>)
    requires |tvb| > 0
    ensures Warnings(Events(tvb, true)) > 0 <==> !Decoded(tvb[0]) && tvb[0] != 0xF0
  {
    if tvb[0] == 0xF0 {
      WarningsAppend([Field("isi_pipe_cmd", 0, 1)], IsiCommon.Events("PIPE", tvb));
    } else if Decoded(tvb[0]) {
      ListedQuiet(tvb);
      QuietWarnings(Events(tvb, true));
    } else {
      UnhandledCommands(tvb);
    }
  }

  /** 0xF0 is handed to the common decoder under the name "PIPE". */
  lemma CommonMessage(tvb: seq<byte>)
    requires |tvb| > 0 && tvb[0] == 0xF0
    ensures Events(tvb, true) == [Field("isi_pipe_cmd", 0, 1)] + IsiCommon.Events("PIPE", tvb)
  {
  }
}
