/** The 512-byte distribution record: where each term lives, how it is written once, and what may change later. */
module Record {
  import opened Base
  import opened Bytes

  const LENGTH: nat := 512
  const MAGIC: seq<Byte> := [75, 73, 68, 83, 68, 83, 84, 49]

  type Pair = s: seq<U64> | |s| == 2 witness [0, 0]
  type Quad = s: seq<U64> | |s| == 4 witness [0, 0, 0, 0]
  type Bumps = s: seq<Byte> | |s| == 5 witness [0, 0, 0, 0, 0]
  type Roots = s: seq<Bytes32> | |s| == 2 witness [ZERO32, ZERO32]

  datatype Distribution = Distribution(
    campaign: Bytes32, mint: Bytes32, launchProgram: Bytes32, dev: Bytes32,
    supply: U64, settledAccepted: U64, launchTime: I64, parentExpiry: I64, devStart: I64, devEnd: I64, devPrior: U64,
    roots: Roots, parentSupply: Pair, eligible: Pair, allocation: Quad, claimed: Quad, burned: Pair,
    flags: Byte, bumps: Bumps)

  /** Everything that is fixed at activation agrees. */
  ghost predicate TermsKept(d: Distribution, d': Distribution)
  {
    d'.(claimed := d.claimed, burned := d.burned, flags := d.flags) == d
  }

  // ---------- layout ----------

  /** The record's fields in the order of their offsets. */
  const FIELDS: nat := 29

  function Offset(f: nat): nat
    requires f < FIELDS
  {
    if f < 3 then 8 + 32 * f                  // campaign, mint, launch program
    else if f < 9 then 104 + 8 * (f - 3)      // supply, settled accepted, launch time, expiry, dev start, dev end
    else if f < 11 then 152 + 32 * (f - 9)    // roots
    else if f < 26 then 216 + 8 * (f - 11)    // parent supplies, eligible, allocations, claimed, burned, dev prior
    else if f == 26 then 336                  // flags
    else if f == 27 then 337                  // bumps
    else 344                                  // dev
  }

  function Width(f: nat): nat
    requires f < FIELDS
  {
    if f < 3 || f == 9 || f == 10 || f == 28 then 32 else if f == 26 then 1 else if f == 27 then 5 else 8
  }

  lemma LayoutFits(f: nat, g: nat)
    requires f < g < FIELDS
    ensures 8 <= Offset(f) && Offset(f) + Width(f) <= Offset(g) && Offset(g) + Width(g) <= 376
  {
  }

  /** A signed time as its unsigned 64-bit pattern. */
  function Unsigned(t: I64): U64
  {
    if t < 0 then t + U64_MAX + 1 else t
  }

  function Signed(n: U64): I64
  {
    if I64_MAX < n then n - U64_MAX - 1 else n
  }

  function Word(d: Distribution, f: nat): U64
    requires 3 <= f < 26 && f != 9 && f != 10
  {
    match f
    case 3 => d.supply
    case 4 => d.settledAccepted
    case 5 => Unsigned(d.launchTime)
    case 6 => Unsigned(d.parentExpiry)
    case 7 => Unsigned(d.devStart)
    case 8 => Unsigned(d.devEnd)
    case 25 => d.devPrior
    case _ =>
      if f < 13 then d.parentSupply[f - 11]
      else if f < 15 then d.eligible[f - 13]
      else if f < 19 then d.allocation[f - 15]
      else if f < 23 then d.claimed[f - 19]
      else d.burned[f - 23]
  }

  function FieldBytes(d: Distribution, f: nat): (b: seq<Byte>)
    requires f < FIELDS
    ensures |b| == Width(f)
  {
    match f
    case 0 => d.campaign
    case 1 => d.mint
    case 2 => d.launchProgram
    case 9 => d.roots[0]
    case 10 => d.roots[1]
    case 26 => [d.flags]
    case 27 => d.bumps
    case 28 => d.dev
    case _ => LittleEndian(Word(d, f), 8)
  }

  type Buffer = b: seq<Byte> | |b| == LENGTH witness seq(LENGTH, _ => 0)

  function Put(b: Buffer, at: nat, v: seq<Byte>): Buffer
    requires at + |v| <= LENGTH
  {
    b[..at] + v + b[at + |v|..]
  }

  function Slice(b: Buffer, f: nat): seq<Byte>
    requires f < FIELDS
  {
    b[Offset(f)..Offset(f) + Width(f)]
  }

  function Write(b: Buffer, d: Distribution, f: nat): Buffer
    requires f < FIELDS
  {
    Put(b, Offset(f), FieldBytes(d, f))
  }

  predicate FieldNumbers(order: seq<nat>)
  {
    forall i :: 0 <= i < |order| ==> order[i] < FIELDS
  }

  /** Writes the fields of `order` one after the other. */
  function WriteAll(b: Buffer, d: Distribution, order: seq<nat>): Buffer
    requires FieldNumbers(order)
  {
    if order == [] then b
    else Write(WriteAll(b, d, order[..|order| - 1]), d, order[|order| - 1])
  }

  lemma WriteSlice(b: Buffer, d: Distribution, f: nat, g: nat)
    requires f < FIELDS && g < FIELDS
    ensures Slice(Write(b, d, f), g) == if f == g then FieldBytes(d, f) else Slice(b, g)
  {
    if f < g {
      LayoutFits(f, g);
    } else if g < f {
      LayoutFits(g, f);
    }
  }

  /** After writing some fields, those fields hold their values and every other field is as before. */
  lemma {:induction false} WriteAllSlice(b: Buffer, d: Distribution, order: seq<nat>, g: nat)
    requires FieldNumbers(order) && g < FIELDS
    ensures Slice(WriteAll(b, d, order), g) == if g in order then FieldBytes(d, g) else Slice(b, g)
    decreases |order|
  {
    hide Slice, FieldBytes, Write;
    if order != [] {
      var front, last := order[..|order| - 1], order[|order| - 1];
      assert order == front + [last];
      WriteAllSlice(b, d, front, g);
      WriteSlice(WriteAll(b, d, front), d, last, g);
    }
  }

  predicate Inside(i: nat, f: nat)
    requires f < FIELDS
  {
    Offset(f) <= i < Offset(f) + Width(f)
  }

  /** Bytes outside the written fields stay. */
  lemma {:induction false} WriteAllElsewhere(b: Buffer, d: Distribution, order: seq<nat>, i: nat)
    requires FieldNumbers(order) && i < LENGTH && forall k :: 0 <= k < |order| ==> !Inside(i, order[k])
    ensures WriteAll(b, d, order)[i] == b[i]
    decreases |order|
  {
    if order != [] {
      WriteAllElsewhere(b, d, order[..|order| - 1], i);
      assert !Inside(i, order[|order| - 1]);
    }
  }

  // ---------- encode, decode, counters ----------

  function Blank(): Buffer
  {
    MAGIC + seq(504, _ => 0)
  }

  /** The order in which `encode` writes: keys, single words, the two parents, the four purposes, flags and bumps. */
  const ENCODE_ORDER: seq<nat> :=
    [0, 1, 2, 28, 3, 4, 5, 6, 7, 8, 25, 9, 11, 13, 23, 10, 12, 14, 24, 15, 19, 16, 20, 17, 21, 18, 22, 26, 27]

  /** The fields `write_counters` touches: claimed, burned, flags. */
  const COUNTER_ORDER: seq<nat> := [19, 20, 21, 22, 23, 24, 26]

  predicate IsCounter(f: nat)
  {
    19 <= f <= 24 || f == 26
  }

  function Encode(d: Distribution): Buffer
  {
    WriteAll(Blank(), d, ENCODE_ORDER)
  }

  function WriteCounters(b: Buffer, d: Distribution): Buffer
  {
    WriteAll(b, d, COUNTER_ORDER)
  }

  function ReadWord(b: Buffer, f: nat): U64
    requires 3 <= f < 26 && f != 9 && f != 10
  {
    WordFits(Slice(b, f));
    FromLittleEndian(Slice(b, f))
  }

  lemma WordFits(b: seq<Byte>)
    requires |b| == 8
    ensures 0 <= FromLittleEndian(b) <= U64_MAX
  {
    FromLittleEndianBound(b);
    U64Fits(U64_MAX);
    assert Pow256(4) == 0x1_0000_0000;
    assert Pow256(8) == 256 * (256 * (256 * (256 * Pow256(4))));
  }

  function ReadKey(b: Buffer, f: nat): Bytes32
    requires f < 3 || f == 9 || f == 10 || f == 28
  {
    Slice(b, f)
  }

  function ReadPair(b: Buffer, f: nat): Pair
    requires 11 <= f < 25
  {
    [ReadWord(b, f), ReadWord(b, f + 1)]
  }

  function ReadQuad(b: Buffer, f: nat): Quad
    requires 11 <= f < 23
  {
    [ReadWord(b, f), ReadWord(b, f + 1), ReadWord(b, f + 2), ReadWord(b, f + 3)]
  }

  function ReadTime(b: Buffer, f: nat): I64
    requires 3 <= f < 9
  {
    Signed(ReadWord(b, f))
  }

  function Decode(b: Buffer): Distribution
  {
    Distribution(
      ReadKey(b, 0), ReadKey(b, 1), ReadKey(b, 2), ReadKey(b, 28),
      ReadWord(b, 3), ReadWord(b, 4), ReadTime(b, 5), ReadTime(b, 6), ReadTime(b, 7), ReadTime(b, 8), ReadWord(b, 25),
      [ReadKey(b, 9), ReadKey(b, 10)], ReadPair(b, 11), ReadPair(b, 13), ReadQuad(b, 15), ReadQuad(b, 19),
      ReadPair(b, 23),
      Slice(b, 26)[0], Slice(b, 27))
  }

  lemma EncodeOrderComplete(f: nat)
    requires f < FIELDS
    ensures f in ENCODE_ORDER
  {
  }

  lemma CounterOrder(f: nat)
    ensures f in COUNTER_ORDER <==> IsCounter(f)
  {
  }

  lemma EncodedField(d: Distribution, f: nat)
    requires f < FIELDS
    ensures Slice(Encode(d), f) == FieldBytes(d, f)
  {
    hide Slice, FieldBytes;
    EncodeOrderComplete(f);
    WriteAllSlice(Blank(), d, ENCODE_ORDER, f);
  }

  lemma EncodedWord(d: Distribution, f: nat)
    requires 3 <= f < 26 && f != 9 && f != 10
    ensures ReadWord(Encode(d), f) == Word(d, f)
  {
    EncodedField(d, f);
    U64Fits(Word(d, f));
    LittleEndianRoundTrip(Word(d, f), 8);
  }

  lemma EncodedKeys(d: Distribution)
    ensures var r := Decode(Encode(d));
      && r.campaign == d.campaign && r.mint == d.mint && r.launchProgram == d.launchProgram && r.dev == d.dev
      && r.roots == d.roots && r.flags == d.flags && r.bumps == d.bumps
  {
    hide Slice, Encode, ReadWord;
    EncodedField(d, 0);
    EncodedField(d, 1);
    EncodedField(d, 2);
    EncodedField(d, 9);
    EncodedField(d, 10);
    EncodedField(d, 26);
    EncodedField(d, 27);
    EncodedField(d, 28);
  }

  lemma EncodedWords(d: Distribution)
    ensures var r := Decode(Encode(d));
      && r.supply == d.supply && r.settledAccepted == d.settledAccepted && r.devPrior == d.devPrior
      && r.launchTime == d.launchTime && r.parentExpiry == d.parentExpiry
      && r.devStart == d.devStart && r.devEnd == d.devEnd
  {
    hide Slice, Encode, ReadWord;
    forall f: nat | 3 <= f < 26 && f != 9 && f != 10 ensures ReadWord(Encode(d), f) == Word(d, f) {
      EncodedWord(d, f);
    }
  }

  lemma EncodedArrays(d: Distribution)
    ensures var r := Decode(Encode(d));
      && r.parentSupply == d.parentSupply && r.eligible == d.eligible && r.allocation == d.allocation
      && r.claimed == d.claimed && r.burned == d.burned
  {
    hide Slice, Encode, ReadWord;
    forall f: nat | 3 <= f < 26 && f != 9 && f != 10 ensures ReadWord(Encode(d), f) == Word(d, f) {
      EncodedWord(d, f);
    }
  }

  /** Every distribution value survives being written and read back, negative times included. */
  lemma DecodeUndoesEncode(d: Distribution)
    ensures Decode(Encode(d)) == d
  {
    hide Decode, Encode;
    EncodedKeys(d);
    EncodedWords(d);
    EncodedArrays(d);
  }

  /** Two buffers that agree on every field and on every byte between the fields are the same. */
  lemma SameBuffer(a: Buffer, b: Buffer)
    requires forall f: nat :: f < FIELDS ==> Slice(a, f) == Slice(b, f)
    requires forall i: nat :: i < LENGTH && Gap(i) ==> a[i] == b[i]
    ensures a == b
  {
    forall i: nat | i < LENGTH ensures a[i] == b[i] {
      if !Gap(i) {
        var f: nat :| f < FIELDS && Inside(i, f);
        assert Slice(a, f)[i - Offset(f)] == a[i];
        assert Slice(b, f)[i - Offset(f)] == b[i];
      }
    }
  }

  /** A byte that belongs to no field: the magic, the padding before the dev key, the unused tail. */
  ghost predicate Gap(i: nat)
  {
    forall f: nat :: f < FIELDS ==> !Inside(i, f)
  }

  lemma KeptTermsSameFields(d: Distribution, d': Distribution, f: nat)
    requires TermsKept(d, d') && f < FIELDS && !IsCounter(f)
    ensures FieldBytes(d, f) == FieldBytes(d', f)
  {
    hide LittleEndian;
  }

  /** Writing only the counters of a value whose terms did not change gives the full encoding of that value. */
  lemma WriteCountersIsEncode(d: Distribution, d': Distribution)
    requires TermsKept(d, d')
    ensures WriteCounters(Encode(d), d') == Encode(d')
  {
    hide Slice, FieldBytes, Inside, TermsKept, WriteAll;
    forall f: nat | f < FIELDS ensures Slice(WriteCounters(Encode(d), d'), f) == Slice(Encode(d'), f) {
      WriteAllSlice(Encode(d), d', COUNTER_ORDER, f);
      CounterOrder(f);
      EncodedField(d, f);
      EncodedField(d', f);
      if !IsCounter(f) {
        KeptTermsSameFields(d, d', f);
      }
    }
    forall i: nat | i < LENGTH && Gap(i) ensures WriteCounters(Encode(d), d')[i] == Encode(d')[i] {
      WriteAllElsewhere(Encode(d), d', COUNTER_ORDER, i);
      WriteAllElsewhere(Blank(), d, ENCODE_ORDER, i);
      WriteAllElsewhere(Blank(), d', ENCODE_ORDER, i);
    }
    SameBuffer(WriteCounters(Encode(d), d'), Encode(d'));
  }

  /** The bytes of the claimed and burned words and the flags byte. */
  predicate CounterByte(i: nat)
  {
    280 <= i < 328 || i == 336
  }

  /** Records with the same terms differ at most in the counter bytes. */
  lemma OnlyCounterBytesDiffer(d: Distribution, d': Distribution, i: nat)
    requires TermsKept(d, d') && i < LENGTH && !CounterByte(i)
    ensures Encode(d')[i] == Encode(d)[i]
  {
    WriteCountersIsEncode(d, d');
    forall k | 0 <= k < |COUNTER_ORDER| ensures !Inside(i, COUNTER_ORDER[k]) {
      CounterOrder(COUNTER_ORDER[k]);
    }
    WriteAllElsewhere(Encode(d), d', COUNTER_ORDER, i);
  }

  /** Eight bytes from `at` hold the number, least significant first. */
  ghost predicate Holds(b: Buffer, at: nat, n: int)
    requires at + 8 <= LENGTH && 0 <= n
  {
    b[at..at + 8] == LittleEndian(n, 8)
  }

  /** A signed time as the 64 bits that stand for it. */
  ghost function Bits(t: I64): nat
  {
    if t < 0 then t + 0x1_0000_0000_0000_0000 else t
  }

  /** Where the keys, roots, flags and bumps stand in the record, after the eight characters that mark it. */
  lemma RecordKeys(d: Distribution)
    ensures var b := Encode(d);
      && b[8..40] == d.campaign && b[40..72] == d.mint && b[72..104] == d.launchProgram && b[344..376] == d.dev
      && b[152..184] == d.roots[0] && b[184..216] == d.roots[1]
      && b[336] == d.flags && b[337..342] == d.bumps
  {
    hide Encode;
    EncodedField(d, 0);
    EncodedField(d, 1);
    EncodedField(d, 2);
    EncodedField(d, 9);
    EncodedField(d, 10);
    EncodedField(d, 26);
    EncodedField(d, 27);
    EncodedField(d, 28);
    assert Encode(d)[336..337][0] == Encode(d)[336];
  }

  /** Where the single terms stand. */
  lemma RecordTerms(d: Distribution)
    ensures var b := Encode(d);
      && Holds(b, 104, d.supply) && Holds(b, 112, d.settledAccepted)
      && Holds(b, 120, Bits(d.launchTime)) && Holds(b, 128, Bits(d.parentExpiry))
      && Holds(b, 136, Bits(d.devStart)) && Holds(b, 144, Bits(d.devEnd)) && Holds(b, 328, d.devPrior)
  {
    hide Encode, LittleEndian;
    EncodedField(d, 3);
    EncodedField(d, 4);
    EncodedField(d, 5);
    EncodedField(d, 6);
    EncodedField(d, 7);
    EncodedField(d, 8);
    EncodedField(d, 25);
  }

  /** Where the figures of the two parents stand. */
  lemma RecordParents(d: Distribution, i: nat)
    requires i < 2
    ensures var b := Encode(d);
      && Holds(b, 216 + 8 * i, d.parentSupply[i]) && Holds(b, 232 + 8 * i, d.eligible[i])
      && Holds(b, 312 + 8 * i, d.burned[i])
  {
    hide Encode, LittleEndian;
    EncodedField(d, 11 + i);
    EncodedField(d, 13 + i);
    EncodedField(d, 23 + i);
  }

  /** Where the figures of the four purposes stand. */
  lemma RecordPurposes(d: Distribution, p: nat)
    requires p < 4
    ensures var b := Encode(d); Holds(b, 248 + 8 * p, d.allocation[p]) && Holds(b, 280 + 8 * p, d.claimed[p])
  {
    hide Encode, LittleEndian;
    EncodedField(d, 15 + p);
    EncodedField(d, 19 + p);
  }

  /** The record starts with the characters KIDSDST1, and every byte that belongs to no field is zero. */
  lemma RecordMark(d: Distribution, i: nat)
    requires i < 8 || 342 <= i < 344 || 376 <= i < LENGTH
    ensures Encode(d)[i] == if i < 8 then "KIDSDST1"[i] as int else 0
  {
    forall k | 0 <= k < |ENCODE_ORDER| ensures !Inside(i, ENCODE_ORDER[k]) {
      OutsideFields(ENCODE_ORDER[k], i);
    }
    WriteAllElsewhere(Blank(), d, ENCODE_ORDER, i);
  }

  lemma OutsideFields(f: nat, i: nat)
    requires f < FIELDS && (i < 8 || 342 <= i < 344 || 376 <= i)
    ensures !Inside(i, f)
  {
  }

  // ---------- in place ----------

  method PutInPlace(a: array<Byte>, at: nat, v: seq<Byte>)
    requires a.Length == LENGTH && at + |v| <= LENGTH
    modifies a
    ensures a[..] == Put(old(a[..]), at, v)
  {
    for i := 0 to |v|
      invariant forall k :: 0 <= k < LENGTH ==> a[k] == if at <= k < at + i then v[k - at] else old(a[k])
    {
      a[at + i] := v[i];
    }
  }

  /** Writes the fields of `order` into the record one after the other. */
  method WriteFields(a: array<Byte>, d: Distribution, order: seq<nat>)
    requires a.Length == LENGTH && FieldNumbers(order)
    modifies a
    ensures a[..] == WriteAll(old(a[..]), d, order)
  {
    for i := 0 to |order|
      invariant a[..] == WriteAll(old(a[..]), d, order[..i])
    {
      assert order[..i + 1][..i] == order[..i];
      FieldsFit(order[i]);
      PutInPlace(a, Offset(order[i]), FieldBytes(d, order[i]));
    }
    assert order[..|order|] == order;
  }

  lemma FieldsFit(f: nat)
    requires f < FIELDS
    ensures Offset(f) + Width(f) <= LENGTH
  {
  }

  /** `encode`: whatever the buffer held, it then holds exactly the value, readable back. */
  method EncodeInPlace(a: array<Byte>, d: Distribution)
    requires a.Length == LENGTH
    modifies a
    ensures a[..] == Encode(d) && Decode(a[..]) == d
  {
    for i := 0 to LENGTH
      invariant forall k :: 0 <= k < i ==> a[k] == 0
    {
      a[i] := 0;
    }
    PutInPlace(a, 0, MAGIC);
    assert a[..] == Blank();
    WriteFields(a, d, ENCODE_ORDER);
    DecodeUndoesEncode(d);
  }

  /** `write_counters`. */
  method WriteCountersInPlace(a: array<Byte>, ghost was: Distribution, d: Distribution)
    requires a.Length == LENGTH && a[..] == Encode(was) && TermsKept(was, d)
    modifies a
    ensures a[..] == Encode(d)
  {
    WriteFields(a, d, COUNTER_ORDER);
    WriteCountersIsEncode(was, d);
  }
}
