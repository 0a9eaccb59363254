// The common-message decoder shared by the resource decoders
// (dissect_isi_common in packet-isi.c).
module IsiCommon {
  import opened Wire

  /** The name given to a common sub-command; c_subcmd keeps its default for other codes. */
  function SubCommandName(sub: byte): (name: string)
    ensures name == "unknown common command" <==> !(0x01 <= sub <= 0x09 || 0x0C <= sub <= 0x17)
  {
    match sub
    case 0x01 => "Service Not Identified Response"
    case 0x02 => "Server Version Get Request"
    case 0x03 => "Server Version Get Response"
    case 0x04 => "FTD Data Request"
    case 0x05 => "FTD Data Response"
    case 0x06 => "FTD Test Data Request"
    case 0x07 => "FTD Test Data Response"
    case 0x08 => "FTD Data Deactivate Request"
    case 0x09 => "FTD Data Deactivate Response"
    case 0x0C => "Power Off Confirm Request"
    case 0x0D => "Power Off Confirm Response"
    case 0x0E => "NVD Set Default Request"
    case 0x0F => "NVD Set Default Response"
    case 0x10 => "NVD Version Check Request"
    case 0x11 => "NVD Version Check Response"
    case 0x12 => "ISI Version Get Request"
    case 0x13 => "ISI Version Get Response"
    case 0x14 => "ISA Entity Not Reachable Response"
    case 0x15 => "RF Control Request"
    case 0x16 => "RF Control Response"
    case 0x17 => "Service Not Authenticated Response"
    case _ => "unknown common command"
  }

  /**
   * What dissect_isi_common appends for a message of the named resource:
   * the sub-command byte is read first, then its field, the version
   * fields for 0x13 and the summary.
   */
  function Events(resource: string, tvb: seq<byte>): (r: seq<Event>)
    ensures |tvb| < 2 ==> r == [Truncated(1)]
    ensures |tvb| >= 2 ==>
      |r| == (if tvb[1] == 0x13 then 4 else 2)
      && r[0] == Field("isi_comcmd", 1, 1)
      && r[|r| - 1] == Summary(resource + " Common Message: " + SubCommandName(tvb[1]))
    ensures Warnings(r) == 0
  {
    if |tvb| < 2 then [Truncated(1)]
    else
      var sub := tvb[1];
      [Field("isi_comcmd", 1, 1)]
      + (if sub == 0x13 then [Field("isi_version_major", 2, 1), Field("isi_version_minor", 3, 1)] else [])
      + [Summary(resource + " Common Message: " + SubCommandName(sub))]
  }

  method Dissect(resource: string, tvb: seq<byte>, out: Output)
    modifies out
    ensures out.events == old(out.events) + Events(resource, tvb)
  {
    if |tvb| < 2 {
      out.Add(Truncated(1));
      return;
    }
    var comcmd := tvb[1];
    out.Add(Field("isi_comcmd", 1, 1));
    var subcmd := SubCommandName(comcmd);
    if comcmd == 0x13 {
      out.Add(Field("isi_version_major", 2, 1));
      out.Add(Field("isi_version_minor", 3, 1));
    }
    out.Add(Summary(resource + " Common Message: " + subcmd));
  }

  /** Only ISI Version Get Response (0x13) carries the major/minor version fields. */
  lemma VersionFields(resource: string, tvb: seq<byte>)
    requires |tvb| >= 2 && tvb[1] == 0x13
    ensures Events(resource, tvb) ==
      [Field("isi_comcmd", 1, 1), Field("isi_version_major", 2, 1), Field("isi_version_minor", 3, 1),
       Summary(resource + " Common Message: " + "ISI Version Get Response")]
  {
    assert SubCommandName(tvb[1]) == "ISI Version Get Response";
  }

  /** Codes with no name (0x0A, 0x0B, 0x00, 0x18 and up) keep the default name and raise no warning. */
  lemma UnknownSubCommand(resource: string, tvb: seq<byte>)
    requires |tvb| >= 2 && !(0x01 <= tvb[1] <= 0x09 || 0x0C <= tvb[1] <= 0x17)
    ensures Events(resource, tvb) ==
      [Field("isi_comcmd", 1, 1), Summary(resource + " Common Message: " + "unknown common command")]
    ensures Warnings(Events(resource, tvb)) == 0
  {
    assert SubCommandName(tvb[1]) == "unknown common command";
  }

  /** Whatever the sub-command, COL_INFO ends as "<resource> Common Message: <name>". */
  lemma ColumnText(resource: string, tvb: seq<byte>, before: string)
    requires |tvb| >= 2
    ensures Column(Events(resource, tvb), before) == resource + " Common Message: " + SubCommandName(tvb[1])
  {
    var r := Events(resource, tvb);
    assert r == r[..|r| - 1] + [r[|r| - 1]];
    ColumnAppend(r[..|r| - 1], [r[|r| - 1]], before);
  }
}
