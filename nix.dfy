/** `write_nix_configuration` (runner.py): the NixOS attribute set naming
    every encrypted partition, written as one text. The file write itself
    is not modelled; the text is the result. */
module Nix {
  import opened Text
  import opened Shell
  import opened Provision

  /** Every line followed by its newline, as each `append` of a piece
      ending in `"\n"` writes it. */
  function Terminated(ls: seq<string>): (pieces: seq<string>)
    ensures |pieces| == |ls|
    ensures forall k :: 0 <= k < |ls| ==> pieces[k] == ls[k] + "\n"
  {
    seq(|ls|, k requires 0 <= k < |ls| => ls[k] + "\n")
  }

  /** `"".join(pieces)`. */
  function Concat(pieces: seq<string>): string
  {
    if pieces == [] then [] else pieces[0] + Concat(pieces[1..])
  }

  /** The pieces that open the text: the function header, `let` and the
      opening of the `sensitive-hdd` set. */
  const HeaderPieces: seq<string> := ["{ ... }:\n", "let\n", "  sensitive-hdd = {\n"]

  /** The pieces that close the set and the `let`, the last one without a
      newline. */
  const FooterPieces: seq<string> := ["  };\n", "in sensitive-hdd"]

  /** The header pieces without their newlines. */
  const HeaderLines: seq<string> := ["{ ... }:", "let", "  sensitive-hdd = {"]

  /** The line that closes the `sensitive-hdd` set. */
  const CloseLine: string := "  };"

  /** The last line, written without a newline. */
  const LastLine: string := "in sensitive-hdd"

  /** The eleven lines of the block for partition `name`: its label, the
      device by UUID and by label, the mount point under the fixed
      `/mnt/sensitive-hdd-mount/`, both UUIDs, the LUKS device by UUID and
      the file system type. */
  function BlockLines(name: string, info: PartitionInfo): (ls: seq<string>)
    ensures |ls| == 11
  {
    [ "    # Partition " + name,
      "    \"" + name + "\" = {",
      "      label = \"" + name + "\";",
      "      device = \"/dev/disk/by-uuid/" + info.uuid + "\";",
      "      device-by-label = \"/dev/disk/by-label/" + name + "\";",
      "      mountPoint = \"/mnt/sensitive-hdd-mount/" + name + "\";",
      "      uuid = \"" + info.uuid + "\";",
      "      luks-uuid = \"" + info.luksUuid + "\";",
      "      luks-device = \"/dev/disk/by-uuid/" + info.luksUuid + "\";",
      "      fsType = \"ext4\";",
      "    };" ]
  }

  /** The pieces one turn of the loop appends. */
  function Block(name: string, info: PartitionInfo): seq<string>
  {
    Terminated(BlockLines(name, info))
  }

  /** The pieces the loop appends for the first `|infos|` partitions, the
      i-th block named `names[i]`. */
  function Blocks(infos: seq<PartitionInfo>, names: seq<string>): (pieces: seq<string>)
    requires |infos| <= |names|
    ensures |pieces| == 11 * |infos|
  {
    if infos == [] then [] else Blocks(infos[..|infos| - 1], names) + Block(names[|infos| - 1], infos[|infos| - 1])
  }

  /** The configuration text for the partitions recorded in `infos`: the
      header, one block per partition and the footer. A partition without a
      name raises `IndexError` before anything is written. */
  function NixText(infos: seq<PartitionInfo>, names: seq<string>): Result<string>
  {
    if |infos| > |names| then Err(IndexError)
    else Ok(Concat(HeaderPieces + Blocks(infos, names) + FooterPieces))
  }

  /** `write_nix_configuration`: the list of pieces grows by the header,
      then by one block per partition, then by the footer, and is joined. */
  method WriteNixConfiguration(infos: seq<PartitionInfo>, names: seq<string>) returns (r: Result<string>)
    ensures r == NixText(infos, names)
  {
    var content := HeaderPieces;
    var i := 0;
    while i < |infos|
      invariant i <= |infos|
      invariant i <= |names|
      invariant content == HeaderPieces + Blocks(infos[..i], names)
    {
      if i >= |names| {
        return Err(IndexError);
      }
      BlocksStep(infos, names, i);
      content := content + Block(names[i], infos[i]);
      i := i + 1;
    }
    assert infos[..i] == infos;
    content := content + FooterPieces;
    return Ok(Concat(content));
  }

  /** One more turn of the loop appends the next partition's block. */
  lemma BlocksStep(infos: seq<PartitionInfo>, names: seq<string>, i: nat)
    requires i < |infos| && i < |names|
    ensures Blocks(infos[..i + 1], names) == Blocks(infos[..i], names) + Block(names[i], infos[i])
  {
    assert infos[..i + 1][..i] == infos[..i];
  }

  // ---------------------------------------------------------------------
  // reading the text back

  /** The lines of the configuration: the header lines, the eleven lines of
      every block in partition order, and the two closing lines. */
  function NixLines(infos: seq<PartitionInfo>, names: seq<string>): (ls: seq<string>)
    requires |infos| <= |names|
    ensures |ls| == 5 + 11 * |infos|
  {
    HeaderLines + BlockLinesOf(infos, names) + [CloseLine, LastLine]
  }

  /** The block lines of the first `|infos|` partitions. */
  function BlockLinesOf(infos: seq<PartitionInfo>, names: seq<string>): (ls: seq<string>)
    requires |infos| <= |names|
    ensures |ls| == 11 * |infos|
  {
    if infos == [] then []
    else BlockLinesOf(infos[..|infos| - 1], names) + BlockLines(names[|infos| - 1], infos[|infos| - 1])
  }

  lemma TerminatedAppend(a: seq<string>, b: seq<string>)
    ensures Terminated(a + b) == Terminated(a) + Terminated(b)
  {
  }

  /** The block pieces are the block lines, each with its newline. */
  lemma {:induction false} BlocksTerminated(infos: seq<PartitionInfo>, names: seq<string>)
    requires |infos| <= |names|
    ensures Blocks(infos, names) == Terminated(BlockLinesOf(infos, names))
  {
    if infos != [] {
      var init := infos[..|infos| - 1];
      BlocksTerminated(init, names);
      TerminatedAppend(BlockLinesOf(init, names), BlockLines(names[|infos| - 1], infos[|infos| - 1]));
    }
  }

  /** Joining lines each followed by a newline, then a last piece, is
      joining all of them with newlines. */
  lemma {:induction false} ConcatTerminated(ls: seq<string>, last: string)
    ensures Concat(Terminated(ls) + [last]) == JoinLines(ls + [last])
  {
    if ls != [] {
      var rest := ls[1..];
      ConcatTerminated(rest, last);
      assert Terminated(ls) + [last] == [ls[0] + "\n"] + (Terminated(rest) + [last]);
      assert ls + [last] == [ls[0]] + (rest + [last]);
      assert (ls + [last])[1..] == rest + [last];
    }
  }

  /** The text is the configuration lines joined by newlines. */
  lemma NixTextJoined(infos: seq<PartitionInfo>, names: seq<string>)
    requires |infos| <= |names|
    ensures NixText(infos, names) == Ok(JoinLines(NixLines(infos, names)))
  {
    var body := HeaderLines + BlockLinesOf(infos, names) + [CloseLine];
    BlocksTerminated(infos, names);
    TerminatedAppend(HeaderLines, BlockLinesOf(infos, names));
    TerminatedAppend(HeaderLines + BlockLinesOf(infos, names), [CloseLine]);
    HeaderTerminated();
    FooterTerminated();
    assert HeaderPieces + Blocks(infos, names) + FooterPieces == Terminated(body) + [LastLine];
    ConcatTerminated(body, LastLine);
    assert body + [LastLine] == NixLines(infos, names);
  }

  /** The i-th block of lines is the block of the i-th partition, named by
      the i-th name. */
  lemma {:induction false} BlockLinesOfAt(infos: seq<PartitionInfo>, names: seq<string>, i: nat)
    requires |infos| <= |names| && i < |infos|
    ensures BlockLinesOf(infos, names)[11 * i..11 * i + 11] == BlockLines(names[i], infos[i])
  {
    var n := |infos| - 1;
    var init := infos[..n];
    if i < n {
      BlockLinesOfAt(init, names, i);
      assert infos[i] == init[i];
    }
  }

  /** Lines `3 + 11 * i` to `3 + 11 * i + 10` of the configuration are the
      block of the i-th partition, in partition order. */
  lemma NixBlockAt(infos: seq<PartitionInfo>, names: seq<string>, i: nat)
    requires |infos| <= |names| && i < |infos|
    ensures NixLines(infos, names)[3 + 11 * i..3 + 11 * i + 11] == BlockLines(names[i], infos[i])
  {
    BlockLinesOfAt(infos, names, i);
    var blocks := BlockLinesOf(infos, names);
    assert NixLines(infos, names)[3 + 11 * i..3 + 11 * i + 11] == blocks[11 * i..11 * i + 11];
  }

  /** The text opens with the header and closes with the footer. */
  lemma NixTextFrame(infos: seq<PartitionInfo>, names: seq<string>)
    requires |infos| <= |names|
    ensures var r := NixText(infos, names);
      && r.Ok?
      && "{ ... }:\n" + "let\n" + "  sensitive-hdd = {\n" <= r.value
      && |r.value| >= 21
      && r.value[|r.value| - 21..] == "  };\n" + "in sensitive-hdd"
  {
    var blocks := Blocks(infos, names);
    ConcatAppend(HeaderPieces, blocks + FooterPieces);
    ConcatAppend(blocks, FooterPieces);
    assert HeaderPieces + blocks + FooterPieces == HeaderPieces + (blocks + FooterPieces);
    HeadText();
    FootText();
    var text := Concat(HeaderPieces) + (Concat(blocks) + Concat(FooterPieces));
    assert NixText(infos, names).value == text;
    assert text[|text| - 21..] == Concat(FooterPieces);
  }

  lemma HeadText()
    ensures Concat(HeaderPieces) == "{ ... }:\n" + "let\n" + "  sensitive-hdd = {\n"
  {
    assert Concat(HeaderPieces[2..]) == "  sensitive-hdd = {\n";
  }

  lemma FootText()
    ensures Concat(FooterPieces) == "  };\n" + "in sensitive-hdd"
  {
    assert Concat(FooterPieces[1..]) == "in sensitive-hdd";
  }

  lemma HeaderTerminated()
    ensures HeaderPieces == Terminated(HeaderLines)
  {
    assert "{ ... }:" + "\n" == "{ ... }:\n";
    assert "let" + "\n" == "let\n";
    assert "  sensitive-hdd = {" + "\n" == "  sensitive-hdd = {\n";
  }

  lemma FooterTerminated()
    ensures FooterPieces == Terminated([CloseLine]) + [LastLine]
  {
    assert "  };" + "\n" == "  };\n";
  }

  lemma {:induction false} ConcatAppend(a: seq<string>, b: seq<string>)
    ensures Concat(a + b) == Concat(a) + Concat(b)
  {
    if a != [] {
      ConcatAppend(a[1..], b);
      assert (a + b)[1..] == a[1..] + b;
      assert Concat(a + b) == a[0] + Concat(a[1..] + b);
      assert a[0] + (Concat(a[1..]) + Concat(b)) == (a[0] + Concat(a[1..])) + Concat(b);
    } else {
      assert a + b == b;
    }
  }

  /** `IndexError` exactly when there are more partitions than names. */
  lemma NixTextFails(infos: seq<PartitionInfo>, names: seq<string>)
    ensures NixText(infos, names).Err? <==> |infos| > |names|
    ensures NixText(infos, names).Err? ==> NixText(infos, names).error == IndexError
  {
  }
}
