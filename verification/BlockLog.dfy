/** The append-only block log and its index of positions, over the bytes of the two files. */
module BlockLog {
  import opened Wrappers
  import opened Arithmetic
  import opened Blocks

  type Bytes = seq<int>

  const WORD := 8
  const WRAP := 0x1_0000_0000_0000_0000

  function LittleEndian(n: nat, size: nat): (s: Bytes)
    ensures |s| == size
  {
    if size == 0 then [] else [n % 256] + LittleEndian(n / 256, size - 1)
  }

  function FromLittleEndian(s: Bytes): int {
    if s == [] then 0 else s[0] + 256 * FromLittleEndian(s[1..])
  }

  function Power(size: nat): (p: nat)
    ensures p >= 1
  {
    if size == 0 then 1 else 256 * Power(size - 1)
  }

  /** The bytes are the digits to base 256, the lowest first. */
  lemma {:induction false} LittleEndianDigit(n: nat, size: nat, i: nat)
    requires i < size
    ensures LittleEndian(n, size)[i] == n / Power(i) % 256
    decreases size
  {
    if i > 0 {
      LittleEndianDigit(n / 256, size - 1, i - 1);
      DivMod(n, Power(i - 1));
    }
  }

  lemma {:induction false} LittleEndianRoundTrip(n: nat, size: nat)
    requires n < Power(size)
    ensures FromLittleEndian(LittleEndian(n, size)) == n
  {
    if size > 0 {
      LittleEndianRoundTrip(n / 256, size - 1);
      assert LittleEndian(n, size)[1..] == LittleEndian(n / 256, size - 1);
    }
  }

  lemma {:induction false} FromJoined(s: Bytes, t: Bytes)
    ensures FromLittleEndian(s + t) == FromLittleEndian(s) + Power(|s|) * FromLittleEndian(t)
  {
    if s == [] {
      assert s + t == t;
    } else {
      assert (s + t)[1..] == s[1..] + t;
      FromJoined(s[1..], t);
    }
  }

  /** The first r bytes of a number are its remainder, the others its quotient. */
  lemma {:induction false} Split(n: nat, size: nat, r: nat)
    requires n < Power(size) && r <= size
    ensures FromLittleEndian(LittleEndian(n, size)[..r]) == n % Power(r)
    ensures FromLittleEndian(LittleEndian(n, size)[r..]) == n / Power(r)
  {
    if r == 0 {
      LittleEndianRoundTrip(n, size);
      assert LittleEndian(n, size)[0..] == LittleEndian(n, size);
    } else {
      var s, t := LittleEndian(n, size), LittleEndian(n / 256, size - 1);
      Split(n / 256, size - 1, r - 1);
      assert s[..r][0] == n % 256 && s[..r][1..] == t[..r - 1] && s[r..] == t[r - 1..];
      DivMod(n, Power(r - 1));
    }
  }

  lemma {:induction false} DivMod(n: nat, p: nat)
    requires p >= 1
    ensures n % (256 * p) == n % 256 + 256 * (n / 256 % p) && n / (256 * p) == n / 256 / p
  {
    var m := n / 256;
    var q, r := m / p, m % p;
    assert n == 256 * (q * p + r) + n % 256;
    assert n == q * (256 * p) + (256 * r + n % 256);
    UniqueQuotient(n, 256 * p, q, 256 * r + n % 256);
  }

  lemma {:induction false} UniqueQuotient(n: nat, d: nat, q: nat, r: nat)
    requires r < d && n == q * d + r
    ensures n / d == q && n % d == r
  {
    assert q * d == d * q;
    Remainder(n, d, q);
    assert d * (n / d) == d * q;
    CancelFactor(d, n / d, q);
    CancelFactor(d, q, n / d);
  }

  function Word(n: nat): Bytes {
    LittleEndian(n, WORD)
  }

  lemma {:induction false} WordPower()
    ensures Power(WORD) == WRAP
  {
    assert Power(2) == 0x1_0000 && Power(4) == 0x1_0000_0000 && Power(6) == 0x1_0000_0000_0000;
  }

  lemma {:induction false} WordRoundTrip(n: nat)
    requires n < WRAP
    ensures FromLittleEndian(Word(n)) == n && |Word(n)| == WORD
  {
    WordPower();
    LittleEndianRoundTrip(n, WORD);
  }

  /** How blocks are packed, and what unpacking the front of a stream gives: a block and its length. */
  type Pack = imap<Block, Bytes>
  type Unpack = imap<Bytes, (Block, nat)>

  /** Packed blocks can be told from what follows them. */
  ghost predicate Codec(pack: Pack, unpack: Unpack) {
    && (forall b :: b in pack)
    && forall b, rest {:trigger pack[b] + rest} :: b in pack ==>
         pack[b] + rest in unpack && unpack[pack[b] + rest] == (b, |pack[b]|)
  }

  /** The log file of some blocks: each packed block is followed by the position it starts at. */
  ghost function LogBytes(pack: Pack, blocks: seq<Block>): Bytes
    requires forall b :: b in pack
  {
    if blocks == [] then [] else
      var before := LogBytes(pack, blocks[..|blocks| - 1]);
      before + pack[blocks[|blocks| - 1]] + Word(|before|)
  }

  /** Where block i starts in the log, and where the log ends for i past the last block. */
  ghost function Position(pack: Pack, blocks: seq<Block>, i: nat): nat
    requires (forall b :: b in pack) && i <= |blocks|
  {
    |LogBytes(pack, blocks[..i])|
  }

  /** The index file: the position of each block in turn. */
  ghost function IndexBytes(pack: Pack, blocks: seq<Block>): Bytes
    requires forall b :: b in pack
  {
    if blocks == [] then [] else
      var n := |blocks| - 1;
      IndexBytes(pack, blocks[..n]) + Word(Position(pack, blocks, n))
  }

  /** Record i of the log. */
  lemma {:induction false} Record(pack: Pack, blocks: seq<Block>, i: nat)
    requires (forall b :: b in pack) && i < |blocks|
    ensures var s, p := LogBytes(pack, blocks), Position(pack, blocks, i);
            var q := p + |pack[blocks[i]]|;
            && Position(pack, blocks, i + 1) == q + WORD <= |s|
            && s[p..q] == pack[blocks[i]] && s[q..q + WORD] == Word(p)
  {
    hide LogBytes;
    var n := |blocks| - 1;
    var before := LogBytes(pack, blocks[..n]);
    LogStep(pack, blocks);
    if i < n {
      Record(pack, blocks[..n], i);
      assert blocks[..n][..i] == blocks[..i] && blocks[..n][..i + 1] == blocks[..i + 1];
      var p := Position(pack, blocks, i);
      var q := p + |pack[blocks[i]]|;
      Prefix(before, LogBytes(pack, blocks), p, q);
      Prefix(before, LogBytes(pack, blocks), q, q + WORD);
    } else {
      assert blocks[..n + 1] == blocks;
    }
  }

  lemma {:induction false} LogStep(pack: Pack, blocks: seq<Block>)
    requires (forall b :: b in pack) && blocks != []
    ensures var n := |blocks| - 1; var before := LogBytes(pack, blocks[..n]);
            LogBytes(pack, blocks) == before + pack[blocks[n]] + Word(|before|)
    ensures LogBytes(pack, blocks[..|blocks| - 1]) <= LogBytes(pack, blocks)
  {
  }

  lemma {:induction false} Prefix(s: Bytes, t: Bytes, i: nat, j: nat)
    requires s <= t && i <= j <= |s|
    ensures s[i..j] == t[i..j]
  {
  }

  /** Entry i of the index. */
  lemma {:induction false} Entry(pack: Pack, blocks: seq<Block>, i: nat)
    requires (forall b :: b in pack) && i < |blocks|
    ensures |IndexBytes(pack, blocks)| == WORD * |blocks|
    ensures IndexBytes(pack, blocks)[WORD * i..WORD * i + WORD] == Word(Position(pack, blocks, i))
  {
    var n := |blocks| - 1;
    var shorter := blocks[..n];
    IndexSize(pack, shorter);
    if i < n {
      Entry(pack, shorter, i);
      assert shorter[..i] == blocks[..i];
      assert IndexBytes(pack, blocks)[WORD * i..WORD * i + WORD] == IndexBytes(pack, shorter)[WORD * i..WORD * i + WORD];
    }
  }

  lemma {:induction false} IndexSize(pack: Pack, blocks: seq<Block>)
    requires forall b :: b in pack
    ensures |IndexBytes(pack, blocks)| == WORD * |blocks|
  {
    if blocks != [] {
      IndexSize(pack, blocks[..|blocks| - 1]);
    }
  }

  /** Positions grow. */
  lemma {:induction false} PositionsGrow(pack: Pack, blocks: seq<Block>, i: nat, j: nat)
    requires (forall b :: b in pack) && i < j <= |blocks|
    ensures Position(pack, blocks, i) + WORD <= Position(pack, blocks, j)
  {
    Record(pack, blocks, j - 1);
    if i < j - 1 {
      PositionsGrow(pack, blocks, i, j - 1);
    }
  }

  /** Blocks 1, 2, 3 and so on. */
  ghost predicate Consecutive(blocks: seq<Block>) {
    forall i :: 0 <= i < |blocks| ==> Num(blocks[i]) == i + 1
  }

  /** What is read at a block's position. */
  lemma {:induction false} UnpackRecord(pack: Pack, unpack: Unpack, blocks: seq<Block>, i: nat)
    requires Codec(pack, unpack) && i < |blocks|
    ensures var s, p := LogBytes(pack, blocks), Position(pack, blocks, i);
            p <= |s| && s[p..] in unpack && unpack[s[p..]] == (blocks[i], |pack[blocks[i]]|)
  {
    Record(pack, blocks, i);
    hide LogBytes, Position;
    var s, p := LogBytes(pack, blocks), Position(pack, blocks, i);
    var q := p + |pack[blocks[i]]|;
    assert s[p..] == s[p..q] + s[q..];
    assert s[p..] == pack[blocks[i]] + s[q..];
  }

  /** The word after block i is the block's position. */
  lemma {:induction false} WordAfter(pack: Pack, blocks: seq<Block>, i: nat)
    requires (forall b :: b in pack) && i < |blocks| && |LogBytes(pack, blocks)| < WRAP
    ensures var s, q := LogBytes(pack, blocks), Position(pack, blocks, i + 1);
            WORD <= q <= |s| && FromLittleEndian(s[q - WORD..q]) == Position(pack, blocks, i)
  {
    hide LogBytes;
    Record(pack, blocks, i);
    WordRoundTrip(Position(pack, blocks, i));
  }

  lemma {:induction false} PositionEnd(pack: Pack, blocks: seq<Block>)
    requires forall b :: b in pack
    ensures Position(pack, blocks, |blocks|) == |LogBytes(pack, blocks)| && Position(pack, blocks, 0) == 0
  {
    assert blocks[..|blocks|] == blocks;
  }

  /** The last index entry is the position of the last block. */
  lemma {:induction false} LastEntry(pack: Pack, blocks: seq<Block>)
    requires (forall b :: b in pack) && blocks != [] && |LogBytes(pack, blocks)| < WRAP
    ensures var s := IndexBytes(pack, blocks);
            |s| >= WORD && FromLittleEndian(s[|s| - WORD..]) == Position(pack, blocks, |blocks| - 1)
  {
    hide LogBytes, IndexBytes;
    var n := |blocks| - 1;
    var s := IndexBytes(pack, blocks);
    Entry(pack, blocks, n);
    assert s[|s| - WORD..] == s[WORD * n..WORD * n + WORD];
    Record(pack, blocks, n);
    WordRoundTrip(Position(pack, blocks, n));
  }

  class BlockLog {
    const pack: Pack
    const unpack: Unpack
    var log: Bytes
    var index: Bytes
    var head: Option<Block>

    /** The log file holds these blocks. */
    ghost predicate Holds(blocks: seq<Block>)
      reads this
    {
      Codec(pack, unpack) && Consecutive(blocks) && log == LogBytes(pack, blocks) && |log| < WRAP
    }

    /** The log is open: its last block is known. */
    ghost predicate Stores(blocks: seq<Block>)
      reads this
    {
      Holds(blocks) && head == if blocks == [] then None else Some(blocks[|blocks| - 1])
    }

    ghost predicate Indexed(blocks: seq<Block>)
      requires forall b :: b in pack
      reads this
    {
      index == IndexBytes(pack, blocks)
    }

    constructor (pack: Pack, unpack: Unpack)
      requires Codec(pack, unpack)
      ensures Stores([]) && Indexed([]) && this.pack == pack && this.unpack == unpack
    {
      this.pack, this.unpack, log, index, head := pack, unpack, [], [], None;
    }

    /** Appends the next block; a block that would not be the next index entry is refused. */
    method Append(b: Block, ghost blocks: seq<Block>) returns (pos: Option<nat>)
      requires Stores(blocks) && |log| + |pack[b]| + WORD < WRAP
      modifies `log, `index, `head
      ensures pos.Some? <==> |old(index)| == WORD * (Num(b) - 1)
      ensures pos.None? ==> log == old(log) && index == old(index) && head == old(head)
      ensures pos.Some? && old(Indexed(blocks)) ==>
        Stores(blocks + [b]) && Indexed(blocks + [b]) && pos.value == Position(pack, blocks + [b], |blocks|)
    {
      if |index| != WORD * (Num(b) - 1) {
        return None;
      }
      pos := Some(|log|);
      IndexSize(pack, blocks);
      assert (blocks + [b])[..|blocks|] == blocks;
      log := log + pack[b] + Word(|log|);
      index := index + Word(pos.value);
      head := Some(b);
    }

    /** The block at a position, and the position of the next one. */
    method ReadBlock(pos: nat, ghost blocks: seq<Block>, ghost i: nat) returns (b: Block, next: nat)
      requires Holds(blocks) && i < |blocks| && pos == Position(pack, blocks, i)
      ensures b == blocks[i] && next == Position(pack, blocks, i + 1)
    {
      hide LogBytes, Consecutive;
      UnpackRecord(pack, unpack, blocks, i);
      Record(pack, blocks, i);
      var (block, size) := unpack[log[pos..]];
      b, next := block, pos + size + 8;
    }

    method GetBlockPos(num: nat, ghost blocks: seq<Block>) returns (pos: Option<nat>)
      requires Stores(blocks) && Indexed(blocks)
      ensures pos == if 1 <= num <= |blocks| then Some(Position(pack, blocks, num - 1)) else None
    {
      hide LogBytes, IndexBytes;
      if !(head.Some? && num <= Num(head.value) && num > 0) {
        return None;
      }
      Entry(pack, blocks, num - 1);
      Record(pack, blocks, num - 1);
      WordRoundTrip(Position(pack, blocks, num - 1));
      pos := Some(FromLittleEndian(index[WORD * (num - 1)..WORD * (num - 1) + WORD]));
    }

    method ReadBlockByNum(num: nat, ghost blocks: seq<Block>) returns (b: Option<Block>)
      requires Stores(blocks) && Indexed(blocks)
      ensures b == if 1 <= num <= |blocks| then Some(blocks[num - 1]) else None
    {
      var pos := GetBlockPos(num, blocks);
      if pos.None? {
        return None;
      }
      var block, next := ReadBlock(pos.value, blocks, num - 1);
      return Some(block);
    }

    method ReadHead(ghost blocks: seq<Block>) returns (b: Block)
      requires Holds(blocks) && blocks != []
      ensures b == blocks[|blocks| - 1]
    {
      hide LogBytes, Consecutive;
      WordAfter(pack, blocks, |blocks| - 1);
      PositionEnd(pack, blocks);
      var pos := FromLittleEndian(log[|log| - WORD..|log|]);
      var next;
      b, next := ReadBlock(pos, blocks, |blocks| - 1);
    }

    /** From the first block on, each next position following from the block before. */
    method ReadForward(ghost blocks: seq<Block>) returns (all: seq<Block>)
      requires Stores(blocks) && blocks != []
      ensures all == blocks
    {
      hide LogBytes;
      PositionEnd(pack, blocks);
      var last := Num(head.value);
      var b, next := ReadBlock(0, blocks, 0);
      all := [];
      while Num(b) != last
        invariant |all| < |blocks| && all == blocks[..|all|] && b == blocks[|all|]
        invariant next == Position(pack, blocks, |all| + 1)
        decreases |blocks| - |all|
      {
        all := all + [b];
        b, next := ReadBlock(next, blocks, |all|);
      }
      all := all + [b];
    }

    /** From the end of the file on, each position being the word before the block after. */
    method ReadBackward(ghost blocks: seq<Block>) returns (all: seq<Block>)
      requires Holds(blocks)
      ensures all == blocks
    {
      hide LogBytes, Consecutive;
      PositionEnd(pack, blocks);
      all := [];
      ghost var i := |blocks|;
      var end := |log|;
      while end > 0
        invariant 0 <= i <= |blocks| && end == Position(pack, blocks, i)
        invariant all == blocks[i..]
        decreases i
      {
        if i == 0 {
          assert false;
        }
        WordAfter(pack, blocks, i - 1);
        var pos := FromLittleEndian(log[end - WORD..end]);
        var b, next := ReadBlock(pos, blocks, i - 1);
        all := [b] + all;
        end := pos;
        i := i - 1;
      }
      if i > 0 {
        WordAfter(pack, blocks, i - 1);
        assert false;
      }
    }

    /** Rebuilds the index from the log. The loop stops once it has written the last block's position, and
        so never starts when that position is zero. */
    method ConstructIndex(ghost blocks: seq<Block>)
      requires Holds(blocks) && blocks != []
      modifies `index
      ensures index == if |blocks| == 1 then [] else IndexBytes(pack, blocks)
      ensures Indexed(blocks) <==> |blocks| != 1
    {
      hide LogBytes, Consecutive;
      index := [];
      WordAfter(pack, blocks, |blocks| - 1);
      PositionEnd(pack, blocks);
      var pos := 0;
      var endPos := FromLittleEndian(log[|log| - WORD..|log|]);
      var cursor := 0;
      ghost var i := 0;
      assert blocks[..0] == [];
      if |blocks| > 1 {
        PositionsGrow(pack, blocks, 0, |blocks| - 1);
      }
      while pos < endPos
        invariant 0 <= i <= |blocks| && cursor == Position(pack, blocks, i)
        invariant index == IndexBytes(pack, blocks[..i])
        invariant (i > 0 ==> |blocks| > 1) && pos == if i == 0 then 0 else Position(pack, blocks, i - 1)
        decreases |blocks| - i
      {
        if 0 < i == |blocks| {
          assert false;
        }
        UnpackRecord(pack, unpack, blocks, i);
        WordAfter(pack, blocks, i);
        Record(pack, blocks, i);
        var (block, size) := unpack[log[cursor..]];
        cursor := cursor + size;
        pos := FromLittleEndian(log[cursor..cursor + WORD]);
        index := index + Word(pos);
        cursor := cursor + WORD;
        assert blocks[..i + 1][..i] == blocks[..i];
        i := i + 1;
      }
      if 0 < i < |blocks| {
        PositionsGrow(pack, blocks, i - 1, |blocks| - 1);
        assert false;
      }
      assert blocks[..|blocks|] == blocks;
      IndexSize(pack, blocks);
    }

    /** Opens the two files: the head is read from the log, and an index whose last entry is not the last
        block's position is rebuilt. An index that is too short to have a last entry cannot be opened. */
    method Open(ghost blocks: seq<Block>) returns (ok: bool)
      requires Holds(blocks) && head == None
      modifies `index, `head
      ensures ok <==> blocks == [] || old(index) == [] || |old(index)| >= WORD
      ensures !ok ==> index == old(index)
      ensures ok ==> Stores(blocks)
      ensures ok ==> index == Reopened(old(index), pack, blocks)
      ensures ok && blocks == [] ==> index == []
      ensures ok && blocks != [] && old(index) != [] ==>
        var last := FromLittleEndian(old(index)[|old(index)| - WORD..]);
        index == if last == Position(pack, blocks, |blocks| - 1) then old(index)
                 else if |blocks| == 1 then [] else IndexBytes(pack, blocks)
      ensures ok && blocks != [] && old(index) == [] ==> index == if |blocks| == 1 then [] else IndexBytes(pack, blocks)
      ensures ok ==> (Indexed(blocks) <==>
        blocks == [] || old(index) == IndexBytes(pack, blocks) || (|blocks| > 1 && !Agrees(old(index), pack, blocks)))
    {
      hide LogBytes, Consecutive, IndexBytes;
      PositionEnd(pack, blocks);
      NonEmpty(pack, blocks);
      ReopenedRight(index, pack, blocks);
      if |log| > 0 {
        var b := ReadHead(blocks);
        head := Some(b);
        if |index| > 0 {
          if |index| < WORD {
            return false;
          }
          WordAfter(pack, blocks, |blocks| - 1);
          var blockPos := FromLittleEndian(log[|log| - WORD..|log|]);
          var indexPos := FromLittleEndian(index[|index| - WORD..]);
          if blockPos < indexPos {
            ConstructIndex(blocks);
          } else if blockPos > indexPos {
            ConstructIndex(blocks);
          }
        } else {
          ConstructIndex(blocks);
        }
      } else if |index| > 0 {
        index := [];
      }
      return true;
    }
  }

  /** The index ends with the position of the last block. */
  ghost predicate Agrees(index: Bytes, pack: Pack, blocks: seq<Block>)
    requires (forall b :: b in pack) && blocks != []
  {
    |index| >= WORD && FromLittleEndian(index[|index| - WORD..]) == Position(pack, blocks, |blocks| - 1)
  }

  /** What opening makes of an index. */
  ghost function Reopened(index: Bytes, pack: Pack, blocks: seq<Block>): Bytes
    requires forall b :: b in pack
  {
    if blocks == [] then []
    else if Agrees(index, pack, blocks) then index
    else if |blocks| == 1 then []
    else IndexBytes(pack, blocks)
  }

  /** The index that belongs to a log of one block is eight zero bytes, not the empty one that a rebuild leaves. */
  lemma {:induction false} OneBlockExample(pack: Pack, b: Block)
    requires forall b :: b in pack
    ensures IndexBytes(pack, [b]) == Word(0) != []
  {
    assert [b][..0] == [];
    assert LogBytes(pack, []) == [];
  }

  lemma {:induction false} NonEmpty(pack: Pack, blocks: seq<Block>)
    requires forall b :: b in pack
    ensures |LogBytes(pack, blocks)| > 0 <==> blocks != []
    ensures |IndexBytes(pack, blocks)| > 0 <==> blocks != []
  {
    IndexSize(pack, blocks);
    if blocks != [] {
      Record(pack, blocks, 0);
    }
  }

  /** The index of more or fewer whole blocks of one chain ends differently, so opening notices it. */
  lemma {:induction false} WrongLengthNoticed(pack: Pack, blocks: seq<Block>, k: nat, n: nat)
    requires (forall b :: b in pack) && 1 <= k <= |blocks| && 1 <= n <= |blocks|
    requires |LogBytes(pack, blocks)| < WRAP
    ensures Agrees(IndexBytes(pack, blocks[..k]), pack, blocks[..n]) <==> k == n
  {
    hide LogBytes, IndexBytes;
    PositionEnd(pack, blocks);
    if k < |blocks| {
      PositionsGrow(pack, blocks, k, |blocks|);
    }
    LastEntryOfPrefix(pack, blocks, k);
    assert blocks[..n][..n - 1] == blocks[..n - 1];
    if k < n {
      PositionsGrow(pack, blocks, k - 1, n - 1);
    } else if n < k {
      PositionsGrow(pack, blocks, n - 1, k - 1);
    }
  }

  lemma {:induction false} LastEntryOfPrefix(pack: Pack, blocks: seq<Block>, k: nat)
    requires (forall b :: b in pack) && 1 <= k <= |blocks| && Position(pack, blocks, k) < WRAP
    ensures var s := IndexBytes(pack, blocks[..k]);
            |s| >= WORD && FromLittleEndian(s[|s| - WORD..]) == Position(pack, blocks, k - 1)
  {
    hide LogBytes, IndexBytes;
    LastEntry(pack, blocks[..k]);
    assert blocks[..k][..k - 1] == blocks[..k - 1];
  }

  /** Opening leaves the right index exactly if it was right, or is noticed to be wrong and the log has more than one
      block. */
  lemma {:induction false} ReopenedRight(index: Bytes, pack: Pack, blocks: seq<Block>)
    requires (forall b :: b in pack) && |LogBytes(pack, blocks)| < WRAP
    ensures Reopened(index, pack, blocks) == IndexBytes(pack, blocks) <==>
      blocks == [] || index == IndexBytes(pack, blocks) || (|blocks| > 1 && !Agrees(index, pack, blocks))
  {
    hide LogBytes, IndexBytes;
    NonEmpty(pack, blocks);
    if blocks != [] {
      LastEntry(pack, blocks);
    }
  }

  // ----- Indexes that have been cut short -----

  /** The last word of the right index cut r bytes into entry k: the end of the entry before, and r bytes of entry k. */
  ghost function CutWord(pack: Pack, blocks: seq<Block>, k: nat, r: nat): int
    requires (forall b :: b in pack) && 1 <= k < |blocks| && r <= WORD
  {
    Position(pack, blocks, k - 1) / Power(r) + Position(pack, blocks, k) % Power(r) * Power(WORD - r)
  }

  /** The bytes that opening reads from a cut index. */
  lemma {:induction false} LastWordOfCut(pack: Pack, blocks: seq<Block>, k: nat, r: nat)
    requires (forall b :: b in pack) && 1 <= k < |blocks| && r <= WORD
    ensures |IndexBytes(pack, blocks)| == WORD * |blocks|
    ensures IndexBytes(pack, blocks)[..WORD * k + r][WORD * (k - 1) + r..]
         == Word(Position(pack, blocks, k - 1))[r..] + Word(Position(pack, blocks, k))[..r]
  {
    hide LogBytes, IndexBytes, LittleEndian;
    var s := IndexBytes(pack, blocks);
    Entry(pack, blocks, k - 1);
    Entry(pack, blocks, k);
    var low, high := s[WORD * (k - 1)..WORD * k], s[WORD * k..WORD * k + WORD];
    assert low[r..] == s[WORD * (k - 1) + r..WORD * k] && high[..r] == s[WORD * k..WORD * k + r];
    assert s[..WORD * k + r][WORD * (k - 1) + r..] == low[r..] + high[..r];
  }

  /** A cut within an entry goes unnoticed exactly if the last word that is left happens to be the last block's
      position. */
  lemma {:induction false} CutInside(pack: Pack, blocks: seq<Block>, k: nat, r: nat)
    requires (forall b :: b in pack) && 1 <= k < |blocks| && 0 < r < WORD && |LogBytes(pack, blocks)| < WRAP
    ensures |IndexBytes(pack, blocks)| == WORD * |blocks|
    ensures Agrees(IndexBytes(pack, blocks)[..WORD * k + r], pack, blocks) <==>
      CutWord(pack, blocks, k, r) == Position(pack, blocks, |blocks| - 1)
  {
    hide LogBytes, IndexBytes, LittleEndian;
    var p, q := Position(pack, blocks, k - 1), Position(pack, blocks, k);
    LastWordOfCut(pack, blocks, k, r);
    Record(pack, blocks, k - 1);
    Record(pack, blocks, k);
    WordPower();
    Split(p, WORD, r);
    Split(q, WORD, r);
    FromJoined(Word(p)[r..], Word(q)[..r]);
    assert Power(WORD - r) * (q % Power(r)) == q % Power(r) * Power(WORD - r);
  }

  /** The right index cut after some bytes, within an entry, where opening does not notice it. */
  ghost predicate CutUnnoticed(pack: Pack, blocks: seq<Block>, length: nat)
    requires forall b :: b in pack
  {
    var k, r := length / WORD, length % WORD;
    1 <= k < |blocks| && r > 0 && CutWord(pack, blocks, k, r) == Position(pack, blocks, |blocks| - 1)
  }

  /** However many bytes are left of the right index of a log with more than one block: opening leaves the right one
      exactly if it can open the file and the cut is not one of those. */
  lemma {:induction false} CutRepaired(pack: Pack, blocks: seq<Block>, length: nat)
    requires (forall b :: b in pack) && |blocks| > 1 && |LogBytes(pack, blocks)| < WRAP && length <= WORD * |blocks|
    ensures |IndexBytes(pack, blocks)| == WORD * |blocks|
    ensures Reopened(IndexBytes(pack, blocks)[..length], pack, blocks) == IndexBytes(pack, blocks) <==>
      !CutUnnoticed(pack, blocks, length)
  {
    hide LogBytes, IndexBytes, CutWord, LittleEndian, FromLittleEndian;
    IndexSize(pack, blocks);
    var s, k, r := IndexBytes(pack, blocks), length / WORD, length % WORD;
    ReopenedRight(s[..length], pack, blocks);
    if length == |s| {
      assert s[..length] == s;
    } else if r > 0 && k >= 1 {
      CutInside(pack, blocks, k, r);
    } else if r == 0 && k >= 1 {
      IndexPrefix(pack, blocks, k);
      WrongLengthNoticed(pack, blocks, k, |blocks|);
      assert blocks[..|blocks|] == blocks;
    }
  }

  lemma {:induction false} IndexPrefix(pack: Pack, blocks: seq<Block>, k: nat)
    requires (forall b :: b in pack) && k <= |blocks|
    ensures |IndexBytes(pack, blocks)| == WORD * |blocks|
    ensures IndexBytes(pack, blocks)[..WORD * k] == IndexBytes(pack, blocks[..k])
  {
    IndexSize(pack, blocks);
    if k == |blocks| {
      assert blocks[..k] == blocks;
    } else {
      var shorter := blocks[..|blocks| - 1];
      IndexSize(pack, shorter);
      IndexPrefix(pack, shorter, k);
      assert shorter[..k] == blocks[..k];
    }
  }

  /** Blocks of 192 and 50992 bytes: the third is at position 51200, which is 256 times the second's, 200. An index cut
      after 15 of its 24 bytes is kept, and nothing can be appended to it. */
  lemma {:induction false} CutExample(pack: Pack, blocks: seq<Block>)
    requires (forall b :: b in pack) && |blocks| == 3 && |LogBytes(pack, blocks)| < WRAP
    requires |pack[blocks[0]]| == 192 && |pack[blocks[1]]| == 50992
    ensures |IndexBytes(pack, blocks)| == 24
    ensures Reopened(IndexBytes(pack, blocks)[..15], pack, blocks) == IndexBytes(pack, blocks)[..15]
  {
    hide LogBytes, IndexBytes;
    Record(pack, blocks, 0);
    Record(pack, blocks, 1);
    PositionEnd(pack, blocks);
    CutInside(pack, blocks, 1, 7);
    assert Power(7) >= 0x1_0000 && Power(1) == 256 by {
      assert Power(2) == 0x1_0000;
    }
    SmallRemainder(200, Power(7));
  }

  lemma {:induction false} SmallRemainder(n: nat, d: nat)
    requires n < d
    ensures n % d == n && 0 / d == 0
  {
  }
}
