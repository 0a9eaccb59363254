// Light resource (isi-light.c): the command switch has no case but its default, so
// every message is reported as unsupported.
module Light {
  import opened Wire

  /** The resource id proto_reg_handoff_isi_light binds the decoder to. */
  const ResourceId: byte := 0x3A

  /** What dissect_isi_light appends for a payload; nothing without a tree. */
  function Events(tvb: seq<byte>, hasTree: bool): (r: seq<Event>)
    ensures !hasTree ==> r == []
    ensures hasTree ==> 1 <= |r| && r[0] == Field("isi_light_cmd", 0, 1)
    ensures hasTree && |tvb| == 0 ==> r == [Field("isi_light_cmd", 0, 1), Truncated(0)]
  {
    if !hasTree then []
    else if |tvb| == 0 then [Field("isi_light_cmd", 0, 1), Truncated(0)]
    else [Field("isi_light_cmd", 0, 1), Summary("unknown Light packet"), Warning("unsupported packet")]
  }

  method Dissect(tvb: seq<byte>, hasTree: bool, out: Output)
    modifies out
    ensures out.events == old(out.events) + Events(tvb, hasTree)
  {
    if !hasTree {
      return;
    }
    out.Add(Field("isi_light_cmd", 0, 1));
    if |tvb| == 0 {
      out.Add(Truncated(0));
      return;
    }
    out.Add(Summary("unknown Light packet"));
    out.Add(Warning("unsupported packet"));
  }

  /** Every message with a command byte is "unknown Light packet" and raises exactly one warning. */
  lemma AlwaysUnsupported(tvb: seq<byte>)
    requires |tvb| > 0
    ensures Events(tvb, true) == [Field("isi_light_cmd", 0, 1), Summary("unknown Light packet"), Warning("unsupported packet")]
    ensures Warnings(Events(tvb, true)) == 1
    ensures Column(Events(tvb, true), "") == "unknown Light packet"
  {
    OneWarning([Field("isi_light_cmd", 0, 1), Summary("unknown Light packet")], "unsupported packet", []);
  }

  /** An empty payload stops at the read of the command byte, before any summary or warning. */
  lemma EmptyPayload()
    ensures Events([], true) == [Field("isi_light_cmd", 0, 1), Truncated(0)]
    ensures Quiet(Events([], true))
  {
  }
}
