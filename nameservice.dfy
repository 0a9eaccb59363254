// Name service resource (isi-nameservice.c): the command switch and the
// loop that lists name entries.
module NameService {
  import opened Wire
  import IsiCommon

  /** The resource id proto_reg_handoff_isi_nameservice binds the decoder to. */
  const ResourceId: byte := 0xDB

  /** The subtree of one name entry: the "Entry <number>" item, then name, device, object and flags. */
  function EntryItems(number: nat, offset: nat): (r: seq<Event>)
    ensures |r| == 5 && r[0] == Entry(number, offset, 8)
  {
    [Entry(number, offset, 8), Field("isi_nameservice_name", 3, 4), Field("isi_nameservice_dev", 8, 1),
     Field("isi_nameservice_obj", 9, 1), Field("isi_nameservice_flags", 10, 1)]
  }

  /** The fields of an entry, which never depend on the entry or the offset it was given. */
  function FixedFields(): seq<Event>
  {
    [Field("isi_nameservice_name", 3, 4), Field("isi_nameservice_dev", 8, 1),
     Field("isi_nameservice_obj", 9, 1), Field("isi_nameservice_flags", 10, 1)]
  }

  /**
   * The entry loop as written: it runs while nr < count, and each round
   * both increments nr and decrements count.
   */
  function Entries(nr: nat, count: nat, offset: nat): seq<Event>
    decreases count - nr
  {
    if nr < count then EntryItems(nr + 1, offset) + Entries(nr + 1, count - 1, offset)
    else []
  }

  /** k consecutive entries numbered first + 1 .. first + k: the independent description of the loop. */
  function Blocks(first: nat, k: nat, offset: nat): (r: seq<Event>)
    ensures |r| == 5 * k
    decreases k
  {
    if k == 0 then [] else EntryItems(first + 1, offset) + Blocks(first + 1, k - 1, offset)
  }

  /** Block i of Blocks is entry first + i + 1, at the given offset and always the same fields. */
  lemma {:induction false} BlockAt(first: nat, k: nat, offset: nat, i: nat)
    requires i < k
    ensures Blocks(first, k, offset)[5 * i .. 5 * i + 5] == EntryItems(first + i + 1, offset)
    ensures Blocks(first, k, offset)[5 * i] == Entry(first + i + 1, offset, 8)
    ensures Blocks(first, k, offset)[5 * i + 1 .. 5 * i + 5] == FixedFields()
    decreases k
  {
    var r := Blocks(first, k, offset);
    var head := EntryItems(first + 1, offset);
    var rest := Blocks(first + 1, k - 1, offset);
    assert r == head + rest;
    if i == 0 {
      assert r[0 .. 5] == head;
    } else {
      BlockAt(first + 1, k - 1, offset, i - 1);
      assert r[5 * i .. 5 * i + 5] == rest[5 * (i - 1) .. 5 * (i - 1) + 5];
    }
    assert r[5 * i + 1 .. 5 * i + 5] == r[5 * i .. 5 * i + 5][1 ..];
  }

  /** From round nr on, the loop produces ⌈(count - nr) / 2⌉ entries numbered from nr + 1. */
  lemma {:induction false} EntriesAreBlocks(nr: nat, count: nat, offset: nat)
    requires nr <= count + 1
    ensures Entries(nr, count, offset) == Blocks(nr, (count - nr + 1) / 2, offset)
    decreases count - nr
  {
    if nr < count {
      EntriesAreBlocks(nr + 1, count - 1, offset);
      assert (count - nr + 1) / 2 == (count - 1 - (nr + 1) + 1) / 2 + 1;
    }
  }

  /** A count of c lists ⌈c / 2⌉ entries, numbered 1, 2, ... in order, each with the same fixed fields. */
  lemma EntryCount(count: nat, offset: nat)
    ensures |Entries(0, count, offset)| == 5 * ((count + 1) / 2)
    ensures forall i :: 0 <= i < (count + 1) / 2 ==>
      Entries(0, count, offset)[5 * i .. 5 * i + 5] == EntryItems(i + 1, offset)
  {
    EntriesAreBlocks(0, count, offset);
    forall i | 0 <= i < (count + 1) / 2
      ensures Entries(0, count, offset)[5 * i .. 5 * i + 5] == EntryItems(i + 1, offset)
    {
      BlockAt(0, (count + 1) / 2, offset, i);
    }
  }

  /** dissect_isi_nameservice_name: appends the entries of the loop. */
  method NameEntries(count: u32, offset: nat, out: Output)
    modifies out
    ensures out.events == old(out.events) + Entries(0, count, offset)
  {
    var nr: nat := 0;
    var left: nat := count;
    while nr < left
      invariant nr <= left + 1
      invariant old(out.events) + Entries(0, count, offset) == out.events + Entries(nr, left, offset)
      decreases left - nr
    {
      var items := EntryItems(nr + 1, offset);
      AppendAssoc(out.events, items, Entries(nr + 1, left - 1, offset));
      out.Append(items);
      nr := nr + 1;
      left := left - 1;
    }
  }

  /** The entry loop adds no warning, whatever its count. */
  lemma {:induction false} EntriesQuiet(nr: nat, count: nat, offset: nat)
    ensures Quiet(Entries(nr, count, offset))
    decreases count - nr
  {
    if nr < count {
      EntriesQuiet(nr + 1, count - 1, offset);
      QuietAppend(EntryItems(nr + 1, offset), Entries(nr + 1, count - 1, offset));
    }
  }

  /** Commands with a case of their own in dissect_isi_nameservice, other than the common message. */
  predicate Decoded(cmd: byte)
  {
    0x01 <= cmd <= 0x08
  }

  /** The items a case adds before the entry loop, starting with its summary. */
  function CommandItems(cmd: byte): seq<Event>
  {
    if !Decoded(cmd) then [Summary("unknown Nameservice packet"), Warning("unsupported packet")]
    else match cmd
    case 0x01 =>
      [Summary("Nameservice Query Request"), Field("isi_nameservice_name", 3, 4), Field("isi_nameservice_bitmask", 8, 4)]
    case 0x02 =>
      [Summary("Nameservice Query Response"), Field("isi_nameservice_matches_total", 1, 2),
       Field("isi_nameservice_matches", 3, 2)]
    case 0x03 =>
      [Summary("Nameservice Add Indication"), Field("isi_nameservice_matches_total", 1, 2),
       Field("isi_nameservice_matches", 3, 2)]
    case 0x04 =>
      [Summary("Nameservice Remove Indication"), Field("isi_nameservice_matches_total", 1, 2),
       Field("isi_nameservice_matches", 3, 2)]
    case 0x05 => [Summary("Nameservice Add Request")]
    case 0x06 => [Summary("Nameservice Add Response"), Field("isi_nameservice_reason", 1, 1)]
    case 0x07 => [Summary("Nameservice Remove Request"), Field("isi_nameservice_name", 3, 4)]
    case _ => [Summary("Nameservice Remove Response"), Field("isi_nameservice_reason", 1, 1)]
  }

  /**
   * The count the entry loop is given: the three indications pass the
   * field id of the "Matches in Message" item (matchesId, fixed at field
   * registration), not a value read from the message; the add request
   * passes 1; the other cases do not run the loop.
   */
  function LoopCount(cmd: byte, matchesId: u32): u32
  {
    if 0x02 <= cmd <= 0x04 then matchesId else if cmd == 0x05 then 1 else 0
  }

  /** What dissect_isi_nameservice appends for a payload; nothing without a tree. */
  function Events(tvb: seq<byte>, hasTree: bool, matchesId: u32): (r: seq<Event>)
    ensures !hasTree ==> r == []
    ensures hasTree ==> 1 <= |r| && r[0] == Field("isi_nameservice_cmd", 0, 1)
    ensures hasTree && |tvb| == 0 ==> r == [Field("isi_nameservice_cmd", 0, 1), Truncated(0)]
  {
    if !hasTree then []
    else if |tvb| == 0 then [Field("isi_nameservice_cmd", 0, 1), Truncated(0)]
    else if tvb[0] == 0xF0 then [Field("isi_nameservice_cmd", 0, 1)] + IsiCommon.Events("Nameservice", tvb)
    else [Field("isi_nameservice_cmd", 0, 1)] + CommandItems(tvb[0]) + Entries(0, LoopCount(tvb[0], matchesId), 5)
  }

  method Dissect(tvb: seq<byte>, hasTree: bool, matchesId: u32, out: Output)
    modifies out
    ensures out.events == old(out.events) + Events(tvb, hasTree, matchesId)
  {
    if !hasTree {
      return;
    }
    var id := Field("isi_nameservice_cmd", 0, 1);
    out.Add(id);
    if |tvb| == 0 {
      out.Add(Truncated(0));
      return;
    }
    var cmd := tvb[0];
    if cmd == 0xF0 {
      IsiCommon.Dissect("Nameservice", tvb, out);
      AppendAssoc(old(out.events), [id], IsiCommon.Events("Nameservice", tvb));
      return;
    }
    var items := CommandItems(cmd);
    out.Append(items);
    AppendAssoc(old(out.events), [id], items);
    NameEntries(LoopCount(cmd, matchesId), 5, out);
    AppendAssoc(old(out.events), [id] + items, Entries(0, LoopCount(cmd, matchesId), 5));
  }

  /** PNS_NAME_QUERY_REQ: name (4 bytes at 3) and bitmask (4 bytes at 8), no entries. */
  lemma QueryRequest(tvb: seq<byte>, matchesId: u32)
    requires |tvb| > 0 && tvb[0] == 0x01
    ensures Events(tvb, true, matchesId) ==
      [Field("isi_nameservice_cmd", 0, 1), Summary("Nameservice Query Request"),
       Field("isi_nameservice_name", 3, 4), Field("isi_nameservice_bitmask", 8, 4)]
  {
  }

  /** PNS_NAME_ADD_REQ runs the loop with count 1: exactly one entry, numbered 1, at offset 5. */
  lemma AddRequest(tvb: seq<byte>, matchesId: u32)
    requires |tvb| > 0 && tvb[0] == 0x05
    ensures Events(tvb, true, matchesId) ==
      [Field("isi_nameservice_cmd", 0, 1), Summary("Nameservice Add Request")] + EntryItems(1, 5)
  {
    assert Entries(0, 1, 5) == EntryItems(1, 5) + Entries(1, 0, 5);
  }

  /** The two responses show their own summary and the reason byte at 1. */
  lemma Responses(tvb: seq<byte>, matchesId: u32)
    requires |tvb| > 0 && (tvb[0] == 0x06 || tvb[0] == 0x08)
    ensures var r := Events(tvb, true, matchesId);
      |r| == 3
      && r[1] == Summary(if tvb[0] == 0x06 then "Nameservice Add Response" else "Nameservice Remove Response")
      && r[2] == Field("isi_nameservice_reason", 1, 1)
  {
  }

  /** PNS_NAME_REMOVE_REQ: only the name (4 bytes at 3), no entries. */
  lemma RemoveRequest(tvb: seq<byte>, matchesId: u32)
    requires |tvb| > 0 && tvb[0] == 0x07
    ensures Events(tvb, true, matchesId) ==
      [Field("isi_nameservice_cmd", 0, 1), Summary("Nameservice Remove Request"), Field("isi_nameservice_name", 3, 4)]
  {
  }

  /** The query response and the indications list ⌈matchesId / 2⌉ entries after their summary and the two match counts. */
  lemma Indications(tvb: seq<byte>, matchesId: u32)
    requires |tvb| > 0 && 0x02 <= tvb[0] <= 0x04
    ensures var r := Events(tvb, true, matchesId);
      |r| == 4 + 5 * ((matchesId + 1) / 2)
      && r[1] == Summary(if tvb[0] == 0x02 then "Nameservice Query Response"
                         else if tvb[0] == 0x03 then "Nameservice Add Indication"
                         else "Nameservice Remove Indication")
      && r[2] == Field("isi_nameservice_matches_total", 1, 2) && r[3] == Field("isi_nameservice_matches", 3, 2)
      && r[4..] == Entries(0, matchesId, 5)
  {
    EntryCount(matchesId, 5);
  }

  /** 0xF0 is handed to the common decoder under the name "Nameservice". */
  lemma CommonMessage(tvb: seq<byte>, matchesId: u32)
    requires |tvb| > 0 && tvb[0] == 0xF0
    ensures Events(tvb, true, matchesId) == [Field("isi_nameservice_cmd", 0, 1)] + IsiCommon.Events("Nameservice", tvb)
  {
  }

  /** Unknown commands: "unknown Nameservice packet" and exactly one warning. */
  lemma UnknownCommands(tvb: seq<byte>, matchesId: u32)
    requires |tvb| > 0 && !Decoded(tvb[0]) && tvb[0] != 0xF0
    ensures Events(tvb, true, matchesId) ==
      [Field("isi_nameservice_cmd", 0, 1), Summary("unknown Nameservice packet"), Warning("unsupported packet")]
    ensures Warnings(Events(tvb, true, matchesId)) == 1
  {
    assert Entries(0, 0, 5) == [];
    OneWarning([Field("isi_nameservice_cmd", 0, 1), Summary("unknown Nameservice packet")], "unsupported packet", []);
  }

  /** Every command with a case of its own decodes without a warning, entry loop included. */
  lemma ListedQuiet(tvb: seq<byte>, matchesId: u32)
    requires |tvb| > 0 && Decoded(tvb[0])
    ensures Quiet(Events(tvb, true, matchesId))
  {
    var head := [Field("isi_nameservice_cmd", 0, 1)] + CommandItems(tvb[0]);
    assert Quiet(head);
    EntriesQuiet(0, LoopCount(tvb[0], matchesId), 5);
    QuietAppend(head, Entries(0, LoopCount(tvb[0], matchesId), 5));
  }

  /**
   * A message warns exactly when its command is neither listed nor the
   * common message: the default case is the decoder's only warning.
   */
  lemma WarnsIffUnlisted(tvb: seq<byte>, matchesId: u32)
    requires |tvb| > 0
    ensures Warnings(Events(tvb, true, matchesId)) > 0 <==> !Decoded(tvb[0]) && tvb[0] != 0xF0
  {
    if tvb[0] == 0xF0 {
      WarningsAppend([Field("isi_nameservice_cmd", 0, 1)], IsiCommon.Events("Nameservice", tvb));
    } else if Decoded(tvb[0]) {
      ListedQuiet(tvb, matchesId);
      QuietWarnings(Events(tvb, true, matchesId));
    } else {
      UnknownCommands(tvb, matchesId);
    }
  }
}
