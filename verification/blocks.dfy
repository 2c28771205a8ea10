/** What a post is made of: text and media blocks, each media block naming one upload. */
module PostBlocks {

  datatype Block = Text(blank: bool) | Media(file: int) | Unnamed

  datatype Limits = Limits(maxBlocks: nat, maxFiles: nat)

  datatype BlocksReply = Empty | TooMany | TooManyFiles | Invalid | Fine

  predicate HasText(blocks: seq<Block>) {
    exists b :: b in blocks && b.Text?
  }

  function MediaCount(blocks: seq<Block>): nat {
    if blocks == [] then 0 else MediaCount(blocks[..|blocks| - 1]) + if blocks[|blocks| - 1].Text? then 0 else 1
  }

  /** A text says something, a media block names an upload (`Unnamed` is one that does not). */
  predicate BlockOk(b: Block, files: nat) {
    match b
    case Text(blank) => !blank
    case Media(file) => 0 <= file < files
    case Unnamed => false
  }

  /** Every upload is shown by exactly one block, and every block is in order. */
  predicate WellMade(blocks: seq<Block>, files: nat) {
    && (forall b :: b in blocks ==> BlockOk(b, files))
    && (forall i, j :: 0 <= i < j < |blocks| && blocks[i].Media? ==> blocks[i] != blocks[j])
    && (forall f :: 0 <= f < files ==> Media(f) in blocks)
  }

  function Below(n: nat): (s: set<int>)
    ensures |s| == n && forall f :: f in s <==> 0 <= f < n
  {
    if n == 0 then {} else Below(n - 1) + {n - 1}
  }

  lemma SameSize(s: set<int>, t: set<int>)
    requires s <= t && |s| == |t|
    ensures s == t
  {
    assert t == s + (t - s) && |t| == |s| + |t - s|;
  }

  /** The uploads some blocks name. */
  function FilesIn(blocks: seq<Block>): (s: set<int>)
    ensures forall f :: f in s <==> Media(f) in blocks
  {
    if blocks == [] then {}
    else
      assert blocks == blocks[..|blocks| - 1] + [blocks[|blocks| - 1]];
      FilesIn(blocks[..|blocks| - 1]) + match blocks[|blocks| - 1] case Media(f) => {f} case _ => {}
  }

  method CountMedia(blocks: seq<Block>) returns (n: nat)
    ensures n == MediaCount(blocks)
  {
    n := 0;
    var i := 0;
    while i < |blocks|
      invariant 0 <= i <= |blocks| && n == MediaCount(blocks[..i])
    {
      assert blocks[..i + 1][..i] == blocks[..i];
      n := n + if blocks[i].Text? then 0 else 1;
      i := i + 1;
    }
    assert blocks[..i] == blocks;
  }

  lemma OneMoreBlock(blocks: seq<Block>, i: nat)
    requires i < |blocks|
    ensures FilesIn(blocks[..i + 1]) == FilesIn(blocks[..i]) + if blocks[i].Media? then {blocks[i].file} else {}
  {
    assert blocks[..i + 1][..i] == blocks[..i];
  }

  lemma NamedBefore(blocks: seq<Block>, i: nat, f: int)
    requires i <= |blocks|
    ensures f in FilesIn(blocks[..i]) <==> exists j :: 0 <= j < i && blocks[j] == Media(f)
  {
    if j :| 0 <= j < i && blocks[j] == Media(f) {
      assert blocks[..i][j] == Media(f);
    }
  }

  /** One block, beside the uploads named before it. */
  method CheckOne(b: Block, files: nat, used: set<int>) returns (ok: bool, now: set<int>)
    ensures ok <==> BlockOk(b, files) && (b.Media? ==> b.file !in used)
    ensures now == if ok && b.Media? then used + {b.file} else used
  {
    now := used;
    match b {
      case Text(blank) => return !blank, used;
      case Unnamed => return false, used;
      case Media(f) =>
        if !(0 <= f < files) || f in used {
          return false, used;
        }
        return true, used + {f};
    }
  }

  /** Go through the blocks once, remembering the uploads named so far. */
  method CheckEach(blocks: seq<Block>, files: nat) returns (ok: bool, used: set<int>)
    ensures ok <==> (forall b :: b in blocks ==> BlockOk(b, files))
                    && forall i, j :: 0 <= i < j < |blocks| && blocks[i].Media? ==> blocks[i] != blocks[j]
    ensures ok ==> used == FilesIn(blocks)
  {
    ok, used := true, {};
    var i := 0;
    while i < |blocks|
      invariant 0 <= i <= |blocks| && used == FilesIn(blocks[..i])
      invariant forall k :: 0 <= k < i ==> BlockOk(blocks[k], files)
      invariant forall j, k :: 0 <= j < k < i && blocks[j].Media? ==> blocks[j] != blocks[k]
    {
      OneMoreBlock(blocks, i);
      if blocks[i].Media? {
        NamedBefore(blocks, i, blocks[i].file);
      }
      ok, used := CheckOne(blocks[i], files, used);
      if !ok {
        assert blocks[i] in blocks;
        return;
      }
      i := i + 1;
    }
    assert blocks[..i] == blocks;
    return true, used;
  }

  /** The checks of a publication on its blocks, in the order their refusals come: it passes
      exactly when there are some and not too many, and they show every upload once. */
  method CheckBlocks(blocks: seq<Block>, files: nat, limits: Limits) returns (reply: BlocksReply)
    ensures reply.Empty? <==> blocks == []
    ensures reply.TooMany? <==> blocks != [] && |blocks| > limits.maxBlocks
    ensures reply.TooManyFiles? <==> blocks != [] && |blocks| <= limits.maxBlocks && MediaCount(blocks) > limits.maxFiles
    ensures reply.Fine? <==> blocks != [] && |blocks| <= limits.maxBlocks && MediaCount(blocks) <= limits.maxFiles && WellMade(blocks, files)
  {
    if blocks == [] {
      return Empty;
    }
    if |blocks| > limits.maxBlocks {
      return TooMany;
    }
    var media := CountMedia(blocks);
    if media > limits.maxFiles {
      return TooManyFiles;
    }
    var ok, used := CheckEach(blocks, files);
    if !ok {
      return Invalid;
    }
    assert used <= Below(files) by {
      forall f | f in used ensures f in Below(files) {
        assert BlockOk(Media(f), files);
      }
    }
    if |used| != files {
      assert used != Below(files);
      return Invalid;
    }
    SameSize(used, Below(files));
    assert forall f :: 0 <= f < files ==> f in Below(files);
    return Fine;
  }
}
