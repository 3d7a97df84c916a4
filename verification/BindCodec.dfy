/**
 The bit-level format of saved key bindings
 (upstream-survev/client/src/inputBinds.ts, upstream-survev/shared/lib/bitBuffer.ts).
 */
module BindCodec {
  import opened Wrappers

  /** Input types: 0 none, 1 key, 2 mouse button, 3 mouse wheel. */
  const KEY := 1
  datatype InputValue = InputValue(kind: nat, code: nat)

  type Binds = seq<Option<InputValue>>

  // --- bits ---------------------------------------------------------------------------

  /** The low n bits of a value, lowest first. */
  function Bits(value: nat, n: nat): (bits: seq<bool>)
    ensures |bits| == n
  {
    if n == 0 then [] else [value % 2 == 1] + Bits(value / 2, n - 1)
  }

  function Value(bits: seq<bool>): nat {
    if bits == [] then 0 else (if bits[0] then 1 else 0) + 2 * Value(bits[1..])
  }

  lemma {:induction false} ValueOfBits(value: nat, n: nat)
    ensures value < Pow2(n) ==> Value(Bits(value, n)) == value
    ensures Value(Bits(value, n)) < Pow2(n)
  {
    if n > 0 {
      ValueOfBits(value / 2, n - 1);
      assert Bits(value, n)[1..] == Bits(value / 2, n - 1);
    }
  }

  lemma {:induction false} BitsOfValue(bits: seq<bool>)
    ensures Bits(Value(bits), |bits|) == bits
    ensures Value(bits) < Pow2(|bits|)
  {
    if bits != [] {
      BitsOfValue(bits[1..]);
      assert bits == [bits[0]] + bits[1..];
    }
  }

  type Byte = b: nat | b < 256

  lemma EightBits(bits: seq<bool>)
    requires |bits| == 8
    ensures Value(bits) < 256
  {
    BitsOfValue(bits);
    assert Pow2(8) == 256;
  }

  function ByteOf(bits: seq<bool>): Byte
    requires |bits| == 8
  {
    EightBits(bits);
    Value(bits)
  }

  function ToBytes(bits: seq<bool>): (bytes: seq<Byte>)
    requires |bits| % 8 == 0
    ensures 8 * |bytes| == |bits|
  {
    if bits == [] then [] else [ByteOf(bits[..8])] + ToBytes(bits[8..])
  }

  function FromBytes(bytes: seq<Byte>): (bits: seq<bool>)
    ensures |bits| == 8 * |bytes|
  {
    if bytes == [] then [] else Bits(bytes[0], 8) + FromBytes(bytes[1..])
  }

  lemma {:induction false} BytesCarryBits(bits: seq<bool>)
    requires |bits| % 8 == 0
    ensures FromBytes(ToBytes(bits)) == bits
    decreases |bits|
  {
    if bits != [] {
      BytesCarryBits(bits[8..]);
      BitsOfValue(bits[..8]);
      assert bits == bits[..8] + bits[8..];
    }
  }

  // --- bindings as bits ----------------------------------------------------------------

  datatype Entry = Entry(kind: nat, code: nat)

  /** What is written for a slot: two bits of type, eight of code, both cut off. */
  function EntryOf(bind: Option<InputValue>): Entry {
    if bind.Some? then Entry(bind.value.kind % 4, bind.value.code % 256) else Entry(0, 0)
  }

  function EntryBits(e: Entry): (bits: seq<bool>)
    ensures |bits| == 10
  {
    Bits(e.kind, 2) + Bits(e.code, 8)
  }

  function AllBits(binds: Binds): (bits: seq<bool>)
    ensures |bits| == 10 * |binds|
  {
    if binds == [] then [] else EntryBits(EntryOf(binds[0])) + AllBits(binds[1..])
  }

  function AllEntries(binds: Binds): (entries: seq<Entry>)
    ensures |entries| == |binds|
  {
    seq(|binds|, i requires 0 <= i < |binds| => EntryOf(binds[i]))
  }

  function Padding(n: nat): (p: nat)
    ensures p < 8 && (n + p) % 8 == 0
  {
    (8 - n % 8) % 8
  }

  function Zeros(n: nat): seq<bool> {
    seq(n, _ => false)
  }

  /** Version one, then the slots. */
  function Versioned(binds: Binds): (bits: seq<bool>)
    ensures |bits| == 8 + 10 * |binds|
  {
    Bits(1, 8) + AllBits(binds)
  }

  /** The saved bits: version, slots, and zeros up to the next byte. */
  function Payload(binds: Binds): (bits: seq<bool>)
    ensures |bits| % 8 == 0
  {
    Versioned(binds) + Zeros(Padding(8 + 10 * |binds|))
  }

  lemma {:induction false} AllBitsSnoc(binds: Binds, bind: Option<InputValue>)
    ensures AllBits(binds + [bind]) == AllBits(binds) + EntryBits(EntryOf(bind))
  {
    if binds == [] {
      OneSlot(bind);
    } else {
      var longer := binds + [bind];
      AllBitsSnoc(binds[1..], bind);
      assert longer[0] == binds[0] && longer[1..] == binds[1..] + [bind];
      Associate(EntryBits(EntryOf(binds[0])), AllBits(binds[1..]), EntryBits(EntryOf(bind)));
    }
  }

  lemma OneSlot(bind: Option<InputValue>)
    ensures AllBits([] + [bind]) == AllBits([]) + EntryBits(EntryOf(bind))
  {
    var single := [] + [bind];
    assert single[0] == bind && single[1..] == [];
    Unpadded(EntryBits(EntryOf(bind)));
  }

  lemma Unpadded(bits: seq<bool>)
    ensures [] + bits == bits == bits + []
  {
  }

  lemma Associate(a: seq<bool>, b: seq<bool>, c: seq<bool>)
    ensures a + (b + c) == (a + b) + c
  {
  }

  lemma OneMoreSlot(binds: Binds, bind: Option<InputValue>)
    ensures Versioned(binds + [bind]) == Versioned(binds) + EntryBits(EntryOf(bind))
  {
    AllBitsSnoc(binds, bind);
    Associate(Bits(1, 8), AllBits(binds), EntryBits(EntryOf(bind)));
  }

  /** Entries are read while ten bits are left. */
  function Entries(bits: seq<bool>): seq<Entry>
    decreases |bits|
  {
    if |bits| < 10 then [] else [Entry(Value(bits[..2]), Value(bits[2..10]))] + Entries(bits[10..])
  }

  lemma EntrySurvives(e: Entry, rest: seq<bool>)
    requires e.kind < 4 && e.code < 256
    ensures Entries(EntryBits(e) + rest) == [e] + Entries(rest)
  {
    var bits := EntryBits(e) + rest;
    ValueOfBits(e.kind, 2);
    ValueOfBits(e.code, 8);
    assert Pow2(2) == 4 && Pow2(8) == 256;
    assert bits[..2] == Bits(e.kind, 2) && bits[2..10] == Bits(e.code, 8) && bits[10..] == rest;
  }

  /** Fewer than ten bits behind the slots never read as one more. */
  lemma {:induction false} EntriesSurvivePadding(binds: Binds, padding: seq<bool>)
    requires |padding| < 10
    ensures Entries(AllBits(binds) + padding) == AllEntries(binds)
    decreases |binds|
  {
    if binds == [] {
      assert AllBits(binds) + padding == padding;
    } else {
      var first, rest := EntryOf(binds[0]), AllBits(binds[1..]) + padding;
      EntriesSurvivePadding(binds[1..], padding);
      assert AllEntries(binds) == [first] + AllEntries(binds[1..]);
      assert AllBits(binds) + padding == EntryBits(first) + rest;
      EntrySurvives(first, rest);
    }
  }

  /** What is read back from the saved bytes is what was written for every slot, and no more. */
  lemma PayloadReadsBack(binds: Binds)
    ensures var bits := FromBytes(ToBytes(Payload(binds)));
            |bits| >= 8 && Value(bits[..8]) == 1 && Entries(bits[8..]) == AllEntries(binds)
  {
    var padding := Zeros(Padding(8 + 10 * |binds|));
    var slots := AllBits(binds) + padding;
    assert Payload(binds) == Bits(1, 8) + slots;
    BytesCarryBits(Payload(binds));
    EntriesSurvivePadding(binds, padding);
    Front(Bits(1, 8), slots);
    assert Value(Bits(1, 8)) == 1 by {
      ValueOfBits(1, 8);
      assert Pow2(8) == 256;
    }
  }

  lemma Front(a: seq<bool>, b: seq<bool>)
    ensures (a + b)[..|a|] == a && (a + b)[|a|..] == b
  {
  }

  // --- bindings from entries -----------------------------------------------------------------

  ghost predicate Distinct(binds: Binds) {
    forall i, j :: 0 <= i < j < |binds| && binds[i].Some? ==> binds[i] != binds[j]
  }

  /** No slot holds the value any more. */
  function Without(binds: Binds, value: InputValue): (r: Binds)
    ensures |r| == |binds|
  {
    seq(|binds|, i requires 0 <= i < |binds| => if binds[i] == Some(value) then None else binds[i])
  }

  /** A slot takes over a value from whichever slot had it. */
  function WithBind(binds: Binds, bind: nat, value: Option<InputValue>): (r: Binds)
    requires bind < |binds|
    ensures |r| == |binds|
  {
    (if value.Some? then Without(binds, value.value) else binds)[bind := value]
  }

  lemma WithBindKeepsDistinct(binds: Binds, bind: nat, value: Option<InputValue>)
    requires bind < |binds| && Distinct(binds)
    ensures Distinct(WithBind(binds, bind, value))
  {
  }

  function Blank(count: nat): (binds: Binds)
    ensures |binds| == count
  {
    seq(count, _ => None)
  }

  /** One entry read: ignored if it is for no slot or of no type. */
  function Apply(binds: Binds, bind: nat, e: Entry): (r: Binds)
    ensures |r| == |binds|
  {
    if bind < |binds| && e.kind != 0 then WithBind(binds, bind, Some(InputValue(e.kind, e.code))) else binds
  }

  function Load(count: nat, entries: seq<Entry>): (binds: Binds)
    ensures |binds| == count
    decreases |entries|
  {
    if entries == [] then Blank(count)
    else Apply(Load(count, entries[..|entries| - 1]), |entries| - 1, entries[|entries| - 1])
  }

  predicate Encodable(binds: Binds) {
    forall i | 0 <= i < |binds| && binds[i].Some? :: 1 <= binds[i].value.kind <= 3 && binds[i].value.code < 256
  }

  lemma {:induction false} LoadIsEncodable(count: nat, entries: seq<Entry>)
    requires forall i | 0 <= i < |entries| :: entries[i].kind < 4 && entries[i].code < 256
    ensures Encodable(Load(count, entries)) && Distinct(Load(count, entries))
    decreases |entries|
  {
    if entries != [] {
      LoadIsEncodable(count, entries[..|entries| - 1]);
    }
  }

  lemma AppliesNext(binds: Binds, k: nat)
    requires Distinct(binds) && Encodable(binds) && k < |binds|
    ensures Apply(binds[..k] + Blank(|binds| - k), k, EntryOf(binds[k])) == binds[..k + 1] + Blank(|binds| - (k + 1))
  {
  }

  /** After k entries the first k slots are restored and the others blank. */
  lemma {:induction false} LoadsPrefix(binds: Binds, k: nat)
    requires Distinct(binds) && Encodable(binds) && k <= |binds|
    ensures Load(|binds|, AllEntries(binds)[..k]) == binds[..k] + Blank(|binds| - k)
  {
    var entries := AllEntries(binds)[..k];
    if k > 0 {
      LoadsPrefix(binds, k - 1);
      assert entries[..k - 1] == AllEntries(binds)[..k - 1] && entries[k - 1] == EntryOf(binds[k - 1]);
      AppliesNext(binds, k - 1);
    } else {
      assert binds[..0] + Blank(|binds|) == Blank(|binds|);
    }
  }

  /** Distinct bindings are restored from what was saved exactly when every type fits two bits
      and names something and every code fits a byte. */
  lemma RestoresIffEncodable(binds: Binds)
    requires Distinct(binds)
    ensures Load(|binds|, AllEntries(binds)) == binds <==> Encodable(binds)
  {
    LoadIsEncodable(|binds|, AllEntries(binds));
    if Encodable(binds) {
      LoadsPrefix(binds, |binds|);
      assert AllEntries(binds)[..|binds|] == AllEntries(binds);
      assert binds[..|binds|] + Blank(0) == binds;
    }
  }

  // --- the saved form in numbers ---------------------------------------------------------------

  /** The j-th binary digit of a number, from the lowest. */
  ghost function Digit(value: nat, j: nat): nat {
    if j == 0 then value % 2 else Digit(value / 2, j - 1)
  }

  /** The k-th bit of some bytes: byte by byte, lowest first. */
  ghost function BitAt(data: seq<Byte>, k: nat): nat
    requires k < 8 * |data|
  {
    Digit(data[k / 8], k % 8)
  }

  /** The number in n bits from a position on, lowest first. */
  ghost function Number(data: seq<Byte>, at: nat, n: nat): nat
    requires at + n <= 8 * |data|
    decreases n
  {
    if n == 0 then 0 else BitAt(data, at) + 2 * Number(data, at + 1, n - 1)
  }

  lemma {:induction false} BitsAreDigits(value: nat, n: nat, j: nat)
    requires j < n
    ensures Digit(value, j) == if Bits(value, n)[j] then 1 else 0
  {
    if j > 0 {
      BitsAreDigits(value / 2, n - 1, j - 1);
    }
  }

  lemma {:induction false} BytesAreDigits(data: seq<Byte>, k: nat)
    requires k < 8 * |data|
    ensures BitAt(data, k) == if FromBytes(data)[k] then 1 else 0
    decreases |data|
  {
    if k < 8 {
      BitsAreDigits(data[0], 8, k);
    } else {
      BytesAreDigits(data[1..], k - 8);
      assert (k - 8) / 8 == k / 8 - 1 && (k - 8) % 8 == k % 8;
    }
  }

  lemma {:induction false} NumberIsValue(data: seq<Byte>, at: nat, n: nat)
    requires at + n <= 8 * |data|
    ensures Number(data, at, n) == Value(FromBytes(data)[at..at + n])
    decreases n
  {
    if n > 0 {
      var bits := FromBytes(data)[at..at + n];
      BytesAreDigits(data, at);
      NumberIsValue(data, at + 1, n - 1);
      assert bits[1..] == FromBytes(data)[at + 1..at + n];
    }
  }

  /** The bytes hold the version, 1, in eight bits; then for each slot its type in two bits and
      its code in eight, both cut off to that size and 0 if it is not bound; then zeros up to
      the end of the byte. */
  ghost predicate LaidOut(data: seq<Byte>, binds: Binds) {
    && |data| == (8 + 10 * |binds| + 7) / 8
    && Number(data, 0, 8) == 1
    && (forall i | 0 <= i < |binds| :: SlotLaidOut(data, binds, i))
    && forall k | 8 + 10 * |binds| <= k < 8 * |data| :: BitAt(data, k) == 0
  }

  ghost predicate SlotLaidOut(data: seq<Byte>, binds: Binds, i: nat)
    requires i < |binds| && 8 + 10 * |binds| <= 8 * |data|
  {
    && Number(data, 8 + 10 * i, 2) == (if binds[i].Some? then binds[i].value.kind % 4 else 0)
    && Number(data, 8 + 10 * i + 2, 8) == (if binds[i].Some? then binds[i].value.code % 256 else 0)
  }

  lemma {:induction false} SlotBits(binds: Binds, i: nat)
    requires i < |binds|
    ensures AllBits(binds)[10 * i..10 * i + 10] == EntryBits(EntryOf(binds[i]))
  {
    if i > 0 {
      SlotBits(binds[1..], i - 1);
      SliceOfSum(EntryBits(EntryOf(binds[0])), AllBits(binds[1..]), 10 * (i - 1), 10);
    } else {
      SliceOfFront(EntryBits(EntryOf(binds[0])), AllBits(binds[1..]), 0, 10);
    }
  }

  lemma SliceOfSlice(bits: seq<bool>, a: nat, n: nat, i: nat, m: nat)
    requires a + n <= |bits| && i + m <= n
    ensures bits[a..a + n][i..i + m] == bits[a + i..a + i + m]
  {
    var outer := bits[a..a + n];
    var inner := outer[i..i + m];
    assert forall k | 0 <= k < m :: inner[k] == bits[a + i + k];
  }

  lemma SliceOfSum(a: seq<bool>, b: seq<bool>, i: nat, n: nat)
    requires i + n <= |b|
    ensures (a + b)[|a| + i..|a| + i + n] == b[i..i + n]
  {
    var slice := (a + b)[|a| + i..|a| + i + n];
    assert forall k | 0 <= k < n :: slice[k] == b[i + k];
  }

  lemma SliceOfFront(a: seq<bool>, b: seq<bool>, i: nat, n: nat)
    requires i + n <= |a|
    ensures (a + b)[i..i + n] == a[i..i + n]
  {
  }

  lemma PayloadSlot(binds: Binds, i: nat)
    requires i < |binds|
    ensures Payload(binds)[8 + 10 * i..8 + 10 * i + 10] == EntryBits(EntryOf(binds[i]))
  {
    SlotBits(binds, i);
    SliceOfSum(Bits(1, 8), AllBits(binds), 10 * i, 10);
    SliceOfFront(Versioned(binds), Zeros(Padding(8 + 10 * |binds|)), 8 + 10 * i, 10);
  }

  lemma NumberWritten(data: seq<Byte>, at: nat, n: nat, value: nat)
    requires at + n <= 8 * |data| && value < Pow2(n) && FromBytes(data)[at..at + n] == Bits(value, n)
    ensures Number(data, at, n) == value
  {
    NumberIsValue(data, at, n);
    ValueOfBits(value, n);
  }

  lemma HalvesOf(a: seq<bool>, b: seq<bool>)
    ensures (a + b)[0..|a|] == a && (a + b)[|a|..|a| + |b|] == b
  {
  }

  /** Ten bits read as the entry they were written for. */
  lemma TenBits(data: seq<Byte>, at: nat, e: Entry)
    requires at + 10 <= 8 * |data| && e.kind < 4 && e.code < 256
    requires FromBytes(data)[at..at + 10] == EntryBits(e)
    ensures Number(data, at, 2) == e.kind && Number(data, at + 2, 8) == e.code
  {
    HalvesOf(Bits(e.kind, 2), Bits(e.code, 8));
    assert Pow2(2) == 4 && Pow2(8) == 256;
    assert FromBytes(data)[at..at + 2] == Bits(e.kind, 2) by {
      SliceOfSlice(FromBytes(data), at, 10, 0, 2);
    }
    NumberWritten(data, at, 2, e.kind);
    assert FromBytes(data)[at + 2..at + 10] == Bits(e.code, 8) by {
      SliceOfSlice(FromBytes(data), at, 10, 2, 8);
    }
    NumberWritten(data, at + 2, 8, e.code);
  }

  lemma SlotIsLaidOut(data: seq<Byte>, binds: Binds, i: nat)
    requires FromBytes(data) == Payload(binds) && i < |binds|
    ensures SlotLaidOut(data, binds, i)
  {
    PayloadSlot(binds, i);
    TenBits(data, 8 + 10 * i, EntryOf(binds[i]));
  }

  /** What is saved is laid out as it should be. */
  lemma PayloadIsLaidOut(binds: Binds)
    ensures LaidOut(ToBytes(Payload(binds)), binds)
  {
    var data := ToBytes(Payload(binds));
    BytesCarryBits(Payload(binds));
    NumberIsValue(data, 0, 8);
    assert FromBytes(data)[..8] == Bits(1, 8);
    ValueOfBits(1, 8);
    assert Pow2(8) == 256;
    forall i | 0 <= i < |binds|
      ensures SlotLaidOut(data, binds, i)
    {
      SlotIsLaidOut(data, binds, i);
    }
    forall k | 8 + 10 * |binds| <= k < 8 * |data|
      ensures BitAt(data, k) == 0
    {
      BytesAreDigits(data, k);
      assert !Payload(binds)[k];
    }
  }

  /** What the i-th entry of some saved bytes says: type and code. */
  ghost predicate EntryAt(data: seq<Byte>, i: nat, e: Entry)
    requires 8 + 10 * (i + 1) <= 8 * |data|
  {
    e.kind == Number(data, 8 + 10 * i, 2) && e.code == Number(data, 8 + 10 * i + 2, 8)
  }

  lemma {:induction false} EntriesAt(bits: seq<bool>, i: nat)
    ensures |Entries(bits)| == |bits| / 10
    ensures i < |bits| / 10 ==>
              Entries(bits)[i] == Entry(Value(bits[10 * i..10 * i + 2]), Value(bits[10 * i + 2..10 * i + 10]))
    decreases |bits|
  {
    if |bits| >= 10 {
      EntriesAt(bits[10..], if i > 0 then i - 1 else 0);
      if i > 0 && i < |bits| / 10 {
        DropSlice(bits, 10, 10 * (i - 1), 2);
        DropSlice(bits, 10, 10 * (i - 1) + 2, 8);
      }
    }
  }

  /** The version is the first byte. */
  lemma VersionByte(data: seq<Byte>)
    requires |data| >= 1
    ensures Value(FromBytes(data)[..8]) == data[0]
  {
    Front(Bits(data[0], 8), FromBytes(data[1..]));
    ValueOfBits(data[0], 8);
    assert Pow2(8) == 256;
  }

  lemma DropSlice(bits: seq<bool>, a: nat, i: nat, n: nat)
    requires a + i + n <= |bits|
    ensures bits[a..][i..i + n] == bits[a + i..a + i + n]
  {
    var rest := bits[a..];
    var slice := rest[i..i + n];
    assert forall k | 0 <= k < n :: slice[k] == bits[a + i + k];
  }

  lemma BehindVersion(data: seq<Byte>, at: nat, n: nat)
    requires |data| >= 1 && 8 + at + n <= 8 * |data|
    ensures Value(FromBytes(data)[8..][at..at + n]) == Number(data, 8 + at, n)
  {
    NumberIsValue(data, 8 + at, n);
    DropSlice(FromBytes(data), 8, at, n);
  }

  /** There are as many entries as ten bits fit behind the version, and each is read where it
      stands. */
  lemma EntriesWrittenOut(data: seq<Byte>, i: nat)
    requires |data| >= 1
    ensures |Entries(FromBytes(data)[8..])| == (8 * |data| - 8) / 10
    ensures i < (8 * |data| - 8) / 10 ==> EntryAt(data, i, Entries(FromBytes(data)[8..])[i])
  {
    EntriesAt(FromBytes(data)[8..], i);
    if i < (8 * |data| - 8) / 10 {
      BehindVersion(data, 10 * i, 2);
      BehindVersion(data, 10 * i + 2, 8);
    }
  }

  /** A slot holds what its entry says, unless that has no type or a later slot's entry says
      the same. */
  ghost predicate Restored(binds: Binds, entries: seq<Entry>, i: nat)
    requires i < |binds|
  {
    if i < |entries| && entries[i].kind != 0
       && forall j | i < j < |entries| && j < |binds| :: entries[j] != entries[i]
    then binds[i] == Some(InputValue(entries[i].kind, entries[i].code))
    else binds[i] == None
  }

  ghost predicate AllRestored(binds: Binds, entries: seq<Entry>) {
    forall i | 0 <= i < |binds| :: Restored(binds, entries, i)
  }

  lemma RestoredStays(before: Binds, entries: seq<Entry>, e: Entry, i: nat)
    requires i < |before| && Restored(before, entries, i)
    requires e.kind == 0 || |entries| >= |before| || i != |entries|
    ensures Restored(Apply(before, |entries|, e), entries + [e], i)
  {
    var longer, n := entries + [e], |entries|;
    assert forall j | 0 <= j < n :: longer[j] == entries[j];
    if i < n && n < |before| && entries[i] == e {
      assert longer[n] == longer[i];
    }
  }

  lemma {:induction false} LoadWrittenOut(count: nat, entries: seq<Entry>)
    ensures AllRestored(Load(count, entries), entries)
    decreases |entries|
  {
    if entries != [] {
      var before, e := entries[..|entries| - 1], entries[|entries| - 1];
      LoadWrittenOut(count, before);
      assert entries == before + [e];
      forall i | 0 <= i < count
        ensures Restored(Load(count, entries), entries, i)
      {
        if e.kind == 0 || |before| >= count || i != |before| {
          RestoredStays(Load(count, before), before, e, i);
        }
      }
    }
  }
}
