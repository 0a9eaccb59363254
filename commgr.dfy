// Communication manager resource (isi-commgr.c): subscribed-resource
// indications, each listing the resources it names.
module CommMgr {
  import opened Wire

  /** The resource id proto_reg_handoff_isi_commgr binds the decoder to. */
  const ResourceId: byte := 0x10

  /** The resource items _show_resources adds: one byte per resource, from offset 2 on. */
  function ResourceItems(cnt: nat): (r: seq<Event>)
    ensures |r| == cnt
    ensures forall f :: 0 <= f < cnt ==> r[f] == Field("isi_res", 2 + f, 1)
  {
    seq(cnt, f requires 0 <= f < cnt => Field("isi_res", 2 + f, 1))
  }

  /** What _show_resources appends: the count read at 1, then that many resource items. */
  function Resources(tvb: seq<byte>): (r: seq<Event>)
    ensures |tvb| < 2 ==> r == [Truncated(1)]
    ensures |tvb| >= 2 ==> |r| == 1 + tvb[1] as int && r[0] == Field("isi_commgr_resource_count", 1, 1)
  {
    if |tvb| < 2 then [Truncated(1)]
    else [Field("isi_commgr_resource_count", 1, 1)] + ResourceItems(tvb[1])
  }

  /** One more round of the loop adds the next resource item. */
  lemma ResourceItemsStep(f: nat)
    ensures ResourceItems(f + 1) == ResourceItems(f) + [Field("isi_res", 2 + f, 1)]
  {
  }

  method ShowResources(tvb: seq<byte>, out: Output)
    modifies out
    ensures out.events == old(out.events) + Resources(tvb)
  {
    if |tvb| < 2 {
      out.Add(Truncated(1));
      return;
    }
    var cnt := tvb[1];
    out.Add(Field("isi_commgr_resource_count", 1, 1));
    ghost var start := out.events;
    var f: nat := 0;
    while f < cnt
      invariant 0 <= f <= cnt
      invariant out.events == start + ResourceItems(f)
    {
      ResourceItemsStep(f);
      out.Add(Field("isi_res", 2 + f, 1));
      f := f + 1;
    }
    AppendAssoc(old(out.events), [Field("isi_commgr_resource_count", 1, 1)], ResourceItems(cnt));
  }

  /** The resource items cover exactly the bytes 2 .. 1 + cnt, in order. */
  lemma ResourceOffsets(tvb: seq<byte>)
    requires |tvb| >= 2
    ensures forall i :: 1 <= i < |Resources(tvb)| ==>
      Resources(tvb)[i] == Field("isi_res", i + 1, 1) && 2 <= Resources(tvb)[i].offset <= 1 + tvb[1] as int
  {
  }

  /** The indications with a case of their own in dissect_isi_commgr. */
  predicate Decoded(cmd: byte)
  {
    0x10 <= cmd <= 0x13
  }

  /** The summary each indication sets before the resource list. */
  function IndicationName(cmd: byte): string
  {
    match cmd
    case 0x10 => "Subscribed Resources Indication"
    case 0x11 => "Subscribed Resources PMM Indication"
    case 0x12 => "Subscribed Resources Extended Indication"
    case _ => "Subscribed Resources PMM Extended Indication"
  }

  /** What dissect_isi_commgr appends for a payload; nothing without a tree. */
  function Events(tvb: seq<byte>, hasTree: bool): (r: seq<Event>)
    ensures !hasTree ==> r == []
    ensures hasTree ==> 1 <= |r| && r[0] == Field("isi_commgr_cmd", 0, 1)
    ensures hasTree && |tvb| == 0 ==> r == [Field("isi_commgr_cmd", 0, 1), Truncated(0)]
  {
    if !hasTree then []
    else if |tvb| == 0 then [Field("isi_commgr_cmd", 0, 1), Truncated(0)]
    else if Decoded(tvb[0]) then [Field("isi_commgr_cmd", 0, 1), Summary(IndicationName(tvb[0]))] + Resources(tvb)
    else [Field("isi_commgr_cmd", 0, 1), Summary("unknown Indication packet"), Warning("unsupported packet")]
  }

  method Dissect(tvb: seq<byte>, hasTree: bool, out: Output)
    modifies out
    ensures out.events == old(out.events) + Events(tvb, hasTree)
  {
    if !hasTree {
      return;
    }
    out.Add(Field("isi_commgr_cmd", 0, 1));
    if |tvb| == 0 {
      out.Add(Truncated(0));
      return;
    }
    var cmd := tvb[0];
    if !Decoded(cmd) {
      out.Add(Summary("unknown Indication packet"));
      out.Add(Warning("unsupported packet"));
      return;
    }
    var head := [Field("isi_commgr_cmd", 0, 1), Summary(IndicationName(cmd))];
    out.Add(Summary(IndicationName(cmd)));
    ShowResources(tvb, out);
    AppendAssoc(old(out.events), head, Resources(tvb));
  }

  /** An indication: its summary, the count at 1, then cnt resource items at 2 .. 1 + cnt; no warning. */
  lemma Indication(tvb: seq<byte>)
    requires |tvb| >= 2 && Decoded(tvb[0])
    ensures Events(tvb, true) ==
      [Field("isi_commgr_cmd", 0, 1), Summary(IndicationName(tvb[0])), Field("isi_commgr_resource_count", 1, 1)]
      + ResourceItems(tvb[1])
    ensures |Events(tvb, true)| == 3 + tvb[1] as int
    ensures Quiet(Events(tvb, true))
  {
    var head := [Field("isi_commgr_cmd", 0, 1), Summary(IndicationName(tvb[0]))];
    AppendAssoc(head, [Field("isi_commgr_resource_count", 1, 1)], ResourceItems(tvb[1]));
  }

  /** The four indications have four different summaries. */
  lemma DistinctNames(a: byte, b: byte)
    requires Decoded(a) && Decoded(b) && a != b
    ensures IndicationName(a) != IndicationName(b)
  {
  }

  /** Unknown commands: "unknown Indication packet" and exactly one warning; byte 1 is not read. */
  lemma UnknownCommands(tvb: seq<byte>)
    requires |tvb| > 0 && !Decoded(tvb[0])
    ensures Events(tvb, true) ==
      [Field("isi_commgr_cmd", 0, 1), Summary("unknown Indication packet"), Warning("unsupported packet")]
    ensures Warnings(Events(tvb, true)) == 1
  {
    OneWarning([Field("isi_commgr_cmd", 0, 1), Summary("unknown Indication packet")], "unsupported packet", []);
  }
}
