/** Disk blocks as byte sequences, and the 32-bit little-endian words inside them. */
module Disk {
  const BSIZE: nat := 512
  const WORDS: nat := 128
  const UINT_MAX: nat := 0xFFFF_FFFF
  /** Most blocks that one file system operation may log. */
  const MAXOPBLOCKS: nat := 10

  type Byte = x: int | 0 <= x < 256
  type Block = b: seq<Byte> | |b| == BSIZE witness seq(BSIZE, _ => 0)
  type Uint = x: int | 0 <= x < 0x1_0000_0000

  /** What a reader of block `b` sees: the pinned buffer if there is one, else the disk. */
  function Latest(disk: seq<Block>, pinned: map<Uint, Block>, b: nat): Block
    requires b < |disk|
  {
    if b in pinned then pinned[b] else disk[b]
  }

  /** Word `i` of a block, as `((uint*)data)[i]` on a little-endian machine. */
  function Word(b: Block, i: nat): Uint
    requires i < WORDS
  {
    var b0: int, b1: int, b2: int, b3: int := b[4 * i], b[4 * i + 1], b[4 * i + 2], b[4 * i + 3];
    b0 + 256 * b1 + 65536 * b2 + 16777216 * b3
  }

  function SetWord(b: Block, i: nat, w: Uint): (r: Block)
    requires i < WORDS
    ensures forall k :: 0 <= k < BSIZE && !(4 * i <= k < 4 * i + 4) ==> r[k] == b[k]
  {
    b[4 * i := w % 256][4 * i + 1 := w / 256 % 256][4 * i + 2 := w / 65536 % 256][4 * i + 3 := w / 16777216]
  }

  lemma WordOfSetWord(b: Block, i: nat, w: Uint, j: nat)
    requires i < WORDS && j < WORDS
    ensures Word(SetWord(b, i, w), j) == if i == j then w else Word(b, j)
  {
    if i != j {
      assert !(4 * i <= 4 * j < 4 * i + 4);
    } else {
      var h, q := w / 256, w / 65536;
      assert w == w % 256 + 256 * h && q == h / 256 && h == h % 256 + 256 * q && q == q % 256 + 256 * (q / 256);
    }
  }
}
