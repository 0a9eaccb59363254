// Phone information resource (isi-phoneinfo.c): command decoder and sub-block readers.
module PhoneInfo {
  import opened Wire
  import IsiCommon

  /** The resource id proto_reg_handoff_isi_phoneinfo binds the decoder to. */
  const ResourceId: byte := 0x1B

  // ---------------------------------------------------------------------
  // Sub-block readers
  // ---------------------------------------------------------------------

  /** Sub-block types dissect_isi_phoneinfo_subpacket has a reader for. */
  predicate HasReader(sptype: byte)
  {
    sptype == 0x41 || sptype == 0x48 || sptype == 0x64
  }

  /**
   * What dissect_isi_phoneinfo_subpacket appends: the IMEI or software
   * version string at 3, the DSP core version (target, product, string at
   * 5), or one warning.
   */
  function SubpacketEvents(sptype: byte, tvb: seq<byte>): seq<Event>
  {
    match sptype
    case 0x41 => PrefixedString("isi_phoneinfo_serial", 3, tvb)
    case 0x48 => PrefixedString("isi_phoneinfo_version", 3, tvb)
    case 0x64 =>
      [Field("isi_phoneinfo_version_target", 2, 2), Field("isi_phoneinfo_product_target", 4, 1)]
      + PrefixedString("isi_phoneinfo_version", 5, tvb)
    case _ => [Warning("unsupported subblock")]
  }

  method Subpacket(sptype: byte, tvb: seq<byte>, out: Output)
    modifies out
    ensures out.events == old(out.events) + SubpacketEvents(sptype, tvb)
  {
    match sptype
    case 0x41 => AddPrefixedString("isi_phoneinfo_serial", 3, tvb, out);
    case 0x48 => AddPrefixedString("isi_phoneinfo_version", 3, tvb, out);
    case 0x64 =>
      var head := [Field("isi_phoneinfo_version_target", 2, 2), Field("isi_phoneinfo_product_target", 4, 1)];
      out.Append(head);
      AddPrefixedString("isi_phoneinfo_version", 5, tvb, out);
      AppendAssoc(old(out.events), head, PrefixedString("isi_phoneinfo_version", 5, tvb));
    case _ => out.Add(Warning("unsupported subblock"));
  }

  /** IMEI and software version are length-prefixed strings whose length byte is at 3. */
  lemma StringSubblocks(sptype: byte, tvb: seq<byte>)
    requires sptype == 0x41 || sptype == 0x48
    requires 3 < |tvb| && 4 + tvb[3] <= |tvb|
    ensures var r := SubpacketEvents(sptype, tvb);
      |r| == 1 && r[0].Text? && r[0].offset == 4 && r[0].width == tvb[3] && r[0].value == tvb[4 .. 4 + tvb[3]]
  {
  }

  /** The DSP core version block: target u16 at 2, product at 4, then the string with its length at 5. */
  lemma DspCoreVersion(tvb: seq<byte>)
    requires 5 < |tvb| && 6 + tvb[5] <= |tvb|
    ensures SubpacketEvents(0x64, tvb) ==
      [Field("isi_phoneinfo_version_target", 2, 2), Field("isi_phoneinfo_product_target", 4, 1),
       Text("isi_phoneinfo_version", 6, tvb[5], tvb[6 .. 6 + tvb[5]])]
  {
  }

  /** A DSP core version block too short for its length byte still shows its two fields. */
  lemma DspCoreVersionTruncated(tvb: seq<byte>)
    requires |tvb| <= 5
    ensures SubpacketEvents(0x64, tvb) ==
      [Field("isi_phoneinfo_version_target", 2, 2), Field("isi_phoneinfo_product_target", 4, 1), Truncated(5)]
  {
  }

  /** Every other type, listed in the source or not, gives exactly one "unsupported subblock" warning. */
  lemma UnsupportedSubpacket(sptype: byte, tvb: seq<byte>)
    requires !HasReader(sptype)
    ensures SubpacketEvents(sptype, tvb) == [Warning("unsupported subblock")]
    ensures Warnings(SubpacketEvents(sptype, tvb)) == 1
  {
    OneWarning([], "unsupported subblock", []);
  }

  /** The four sub-block readers for the warranty, product type, product info and Bluetooth blocks. */
  datatype Variant = Warranty | ProductType | ProductInfo | Bluetooth

  /** The warning each variant reader gives. */
  function VariantWarning(v: Variant): string
  {
    match v
    case Warranty => "unsupported subblock (wt)"
    case ProductType => "unsupported subblock (cs)"
    case ProductInfo => "unsupported subblock (product)"
    case Bluetooth => "unsupported subblock (bt)"
  }

  /** What dissect_isi_phoneinfo_subpacket_{wt,cs,product,bt} append: one warning whatever the type. */
  function VariantEvents(v: Variant, sptype: byte): seq<Event>
  {
    [Warning(VariantWarning(v))]
  }

  method VariantSubpacket(v: Variant, sptype: byte, tvb: seq<byte>, out: Output)
    modifies out
    ensures out.events == old(out.events) + VariantEvents(v, sptype)
  {
    out.Add(Warning(VariantWarning(v)));
  }

  /** The variant readers decode nothing: every type, named in their switches or not, gives one warning. */
  lemma VariantsAlwaysWarn(v: Variant, sptype: byte)
    ensures |VariantEvents(v, sptype)| == 1 && Warnings(VariantEvents(v, sptype)) == 1
  {
    OneWarning([], VariantWarning(v), []);
  }

  // ---------------------------------------------------------------------
  // Command decoder
  // ---------------------------------------------------------------------

  /** Commands with a case of their own in dissect_isi_phoneinfo (0xF0 aside). */
  predicate Decoded(cmd: byte)
  {
    cmd == 0x00 || cmd == 0x01 || cmd == 0x07 || cmd == 0x08 || cmd == 0x15 || cmd == 0x16
  }

  /** The COL_INFO text each case of dissect_isi_phoneinfo sets before anything else. */
  function CommandName(cmd: byte): string
  {
    match cmd
    case 0x00 => "Serial Number Read Request"
    case 0x01 => "Serial Number Read Response"
    case 0x07 => "Version Read Request"
    case 0x08 => "Version Read Response"
    case 0x15 => "Product Info Read Request"
    case 0x16 => "Product Info Read Response"
    case _ => "unknown PhoneInfo packet"
  }

  /** The items each case of dissect_isi_phoneinfo adds after its summary. */
  function CommandItems(cmd: byte): seq<Event>
  {
    match cmd
    case 0x00 => [Field("isi_phoneinfo_snr_type", 1, 1)]
    case 0x01 => [Field("isi_phoneinfo_status", 1, 1), Walk(3, PhoneInfoSubpacket)]
    case 0x07 => [Field("isi_phoneinfo_version_target", 1, 2), Field("isi_phoneinfo_version_target2", 3, 4)]
    case 0x08 => [Field("isi_phoneinfo_status", 1, 1), Walk(3, PhoneInfoSubpacket)]
    case 0x15 => [Field("isi_phoneinfo_product_target", 1, 1)]
    case 0x16 => [Field("isi_phoneinfo_status", 1, 1), Walk(3, PhoneInfoSubpacket)]
    case _ => [Warning("unsupported packet")]
  }

  /** What dissect_isi_phoneinfo appends for a payload; nothing without a tree. */
  function Events(tvb: seq<byte>, hasTree: bool): (r: seq<Event>)
    ensures !hasTree ==> r == []
    ensures hasTree ==> 1 <= |r| && r[0] == Field("isi_phoneinfo_cmd", 0, 1)
    ensures hasTree && |tvb| == 0 ==> r == [Field("isi_phoneinfo_cmd", 0, 1), Truncated(0)]
  {
    if !hasTree then []
    else if |tvb| == 0 then [Field("isi_phoneinfo_cmd", 0, 1), Truncated(0)]
    else if tvb[0] == 0xF0 then [Field("isi_phoneinfo_cmd", 0, 1)] + IsiCommon.Events("PhoneInfo", tvb)
    else [Field("isi_phoneinfo_cmd", 0, 1), Summary(CommandName(tvb[0]))] + CommandItems(tvb[0])
  }

  method Dissect(tvb: seq<byte>, hasTree: bool, out: Output)
    modifies out
    ensures out.events == old(out.events) + Events(tvb, hasTree)
  {
    if !hasTree {
      return;
    }
    out.Add(Field("isi_phoneinfo_cmd", 0, 1));
    if |tvb| == 0 {
      out.Add(Truncated(0));
      return;
    }
    var cmd := tvb[0];
    if cmd == 0xF0 {
      IsiCommon.Dissect("PhoneInfo", tvb, out);
      AppendAssoc(old(out.events), [Field("isi_phoneinfo_cmd", 0, 1)], IsiCommon.Events("PhoneInfo", tvb));
    } else {
      out.Add(Summary(CommandName(cmd)));
      var items := CommandItems(cmd);
      out.Append(items);
      AppendAssoc(old(out.events), [Field("isi_phoneinfo_cmd", 0, 1), Summary(CommandName(cmd))], items);
    }
  }

  /** The three read responses show the status at 1 and walk sub-blocks from offset 3. */
  lemma ReadResponses(tvb: seq<byte>)
    requires |tvb| > 0 && (tvb[0] == 0x01 || tvb[0] == 0x08 || tvb[0] == 0x16)
    ensures Events(tvb, true) ==
      [Field("isi_phoneinfo_cmd", 0, 1), Summary(CommandName(tvb[0])), Field("isi_phoneinfo_status", 1, 1),
       Walk(3, PhoneInfoSubpacket)]
  {
  }

  /** INFO_VERSION_READ_REQ: target u16 at 1 and target2 u32 at 3. */
  lemma VersionReadRequest(tvb: seq<byte>)
    requires |tvb| > 0 && tvb[0] == 0x07
    ensures Events(tvb, true) ==
      [Field("isi_phoneinfo_cmd", 0, 1), Summary("Version Read Request"),
       Field("isi_phoneinfo_version_target", 1, 2), Field("isi_phoneinfo_version_target2", 3, 4)]
  {
  }

  /** Listed-but-undecoded and unknown commands alike give "unknown PhoneInfo packet" and one warning. */
  lemma UnknownCommands(tvb: seq<byte>)
    requires |tvb| > 0 && !Decoded(tvb[0]) && tvb[0] != 0xF0
    ensures Events(tvb, true) ==
      [Field("isi_phoneinfo_cmd", 0, 1), Summary("unknown PhoneInfo packet"), Warning("unsupported packet")]
    ensures Warnings(Events(tvb, true)) == 1
  {
    OneWarning([Field("isi_phoneinfo_cmd", 0, 1), Summary("unknown PhoneInfo packet")], "unsupported packet", []);
  }

  /** Every command with a case of its own decodes without a warning. */
  lemma ListedQuiet(tvb: seq<byte>)
    requires |tvb| > 0 && Decoded(tvb[0])
    ensures Quiet(Events(tvb, true))
  {
  }

  /**
   * A message warns exactly when its command is neither listed nor the
   * common message: the default case is the decoder's only warning.
   */
  lemma WarnsIffUnlisted(tvb: seq<byte>)
    requires |tvb| > 0
    ensures Warnings(Events(tvb, true)) > 0 <==> !Decoded(tvb[0]) && tvb[0] != 0xF0
  {
    if tvb[0] == 0xF0 {
      WarningsAppend([Field("isi_phoneinfo_cmd", 0, 1)], IsiCommon.Events("PhoneInfo", tvb));
    } else if Decoded(tvb[0]) {
      ListedQuiet(tvb);
      QuietWarnings(Events(tvb, true));
    } else {
      UnknownCommands(tvb);
    }
  }

  /** 0xF0 is handed to the common decoder under the name "PhoneInfo". */
  lemma CommonMessage(tvb: seq<byte>)
    requires |tvb| > 0 && tvb[0] == 0xF0
    ensures Events(tvb, true) == [Field("isi_phoneinfo_cmd", 0, 1)] + IsiCommon.Events("PhoneInfo", tvb)
  {
  }
}
