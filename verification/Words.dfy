/** Serialized memory as the C++ code sees it: 4-byte words that hold either an
    integer bit pattern or a FEATURE_TYPE.  A pointer into the memory is an index. */
module Words {
  const WORD_BYTES := 4
  const TWO_31 := 0x8000_0000
  const TWO_32 := 0x1_0000_0000

  datatype Word = Bits(pattern: nat) | Feature(value: real)

  /** store_value<int> and store_value<uint32_t>: the low 32 bits of the argument. */
  function StoreInt(n: int): (w: Word)
    ensures w.Bits? && w.pattern < TWO_32
  {
    Bits(n % TWO_32)
  }

  /** load_value<uint32_t> */
  function LoadUnsigned(w: Word): nat
    requires w.Bits?
  {
    w.pattern
  }

  /** load_value<int>: the pattern read as two's complement. */
  function LoadInt(w: Word): int
    requires w.Bits?
  {
    if w.pattern < TWO_31 then w.pattern else w.pattern - TWO_32
  }

  predicate FitsInt(n: int) {
    -TWO_31 <= n < TWO_31
  }

  /** The load inverts the store exactly on the values the loaded type can represent. */
  lemma LoadStore(n: int)
    ensures LoadInt(StoreInt(n)) == n <==> -0x8000_0000 <= n < 0x8000_0000
    ensures LoadUnsigned(StoreInt(n)) == n <==> 0 <= n < 0x1_0000_0000
  {
    assert n == n / TWO_32 * TWO_32 + n % TWO_32;
  }

  function FeatureWords(values: seq<real>): (words: seq<Word>)
    ensures |words| == |values|
    ensures forall i | 0 <= i < |values| :: words[i] == Feature(values[i])
  {
    seq(|values|, i requires 0 <= i < |values| => Feature(values[i]))
  }

  function IdWords(ids: seq<int>): (words: seq<Word>)
    ensures |words| == |ids| && forall i | 0 <= i < |ids| :: words[i] == StoreInt(ids[i])
  {
    seq(|ids|, i requires 0 <= i < |ids| => StoreInt(ids[i]))
  }

  const TWO_64 := 0x1_0000_0000_0000_0000

  /** store_value<uint64_t>: two words, the low one first. */
  function StoreLong(n: nat): (w: seq<Word>)
    ensures |w| == 2 && w[0].Bits? && w[1].Bits?
  {
    [Bits(n % TWO_32), Bits(n / TWO_32 % TWO_32)]
  }

  function LoadLong(low: Word, high: Word): nat
    requires low.Bits? && high.Bits?
  {
    low.pattern + TWO_32 * high.pattern
  }

  lemma LoadStoreLong(n: nat)
    ensures LoadLong(StoreLong(n)[0], StoreLong(n)[1]) == n <==> n < 0x1_0000_0000_0000_0000
  {
    assert n == n / TWO_32 * TWO_32 + n % TWO_32;
    assert n / TWO_32 == n / TWO_32 / TWO_32 * TWO_32 + n / TWO_32 % TWO_32;
  }

  /** Reading past the words `front` at a pointer. */
  lemma Past(mem: seq<Word>, at: nat, front: seq<Word>, rest: seq<Word>)
    requires at <= |mem| && mem[at..] == front + rest
    ensures at + |front| <= |mem| && mem[at + |front|..] == rest
    ensures forall k | 0 <= k < |front| :: mem[at + k] == front[k]
  {
    assert mem[at + |front|..] == mem[at..][|front|..];
    forall k | 0 <= k < |front| ensures mem[at + k] == front[k] {
      assert mem[at..][k] == mem[at + k];
    }
  }
}
