// Radio settings resource (isi-radiosettings.c): the command switch has no case but its default, so
// every message is reported as unsupported.
module RadioSettings {
  import opened Wire

  /** The resource id proto_reg_handoff_isi_radiosettings binds the decoder to. */
  const ResourceId: byte := 0xB4

  /** What dissect_isi_radiosettings appends for a payload; nothing without a tree. */
  function Events(tvb: seq<byte>, hasTree: bool): (r: seq<Event>)
    ensures !hasTree ==> r == []
    ensures hasTree ==> 1 <= |r| && r[0] == Field("isi_radiosettings_cmd", 0, 1)
    ensures hasTree && |tvb| == 0 ==> r == [Field("isi_radiosettings_cmd", 0, 1), Truncated(0)]
  {
    if !hasTree then []
    else if |tvb| == 0 then [Field("isi_radiosettings_cmd", 0, 1), Truncated(0)]
    else [Field("isi_radiosettings_cmd", 0, 1), Summary("unknown Radio Settings packet"), Warning("unsupported packet")]
  }

  method Dissect(tvb: seq<byte>, hasTree: bool, out: Output)
    modifies out
    ensures out.events == old(out.events) + Events(tvb, hasTree)
  {
    if !hasTree {
      return;
    }
    out.Add(Field("isi_radiosettings_cmd", 0, 1));
    if |tvb| == 0 {
      out.Add(Truncated(0));
      return;
    }
    out.Add(Summary("unknown Radio Settings packet"));
    out.Add(Warning("unsupported packet"));
  }

  /** Every message with a command byte is "unknown Radio Settings packet" and raises exactly one warning. */
  lemma AlwaysUnsupported(tvb: seq<byte>)
    requires |tvb| > 0
    ensures Events(tvb, true) == [Field("isi_radiosettings_cmd", 0, 1), Summary("unknown Radio Settings packet"), Warning("unsupported packet")]
    ensures Warnings(Events(tvb, true)) == 1
    ensures Column(Events(tvb, true), "") == "unknown Radio Settings packet"
  {
    OneWarning([Field("isi_radiosettings_cmd", 0, 1), Summary("unknown Radio Settings packet")], "unsupported packet", []);
  }

  /** An empty payload stops at the read of the command byte, before any summary or warning. */
  lemma EmptyPayload()
    ensures Events([], true) == [Field("isi_radiosettings_cmd", 0, 1), Truncated(0)]
    ensures Quiet(Events([], true))
  {
  }
}
