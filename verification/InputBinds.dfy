/**
 Key bindings, their index of bound keys, and their saved form, in place
 (upstream-survev/client/src/inputBinds.ts).
 */
module InputBinds {
  import opened BindCodec
  import opened Wrappers

  /** A buffer written and read bit by bit from the front. */
  class BitStream {
    var bits: seq<bool>
    var index: nat

    ghost predicate Valid()
      reads this
    {
      index <= |bits|
    }

    constructor (bits: seq<bool>)
      ensures Valid() && this.bits == bits && index == 0
    {
      this.bits, index := bits, 0;
    }

    function Written(): seq<bool>
      requires Valid()
      reads this
    {
      bits[..index]
    }

    function Unread(): seq<bool>
      requires Valid()
      reads this
    {
      bits[index..]
    }

    method WriteBits(value: nat, n: nat)
      requires Valid() && index + n <= |bits|
      modifies this
      ensures Valid() && index == old(index) + n && |bits| == |old(bits)|
      ensures Written() == old(Written()) + Bits(value, n) && Unread() == old(Unread())[n..]
    {
      var left, k := value, 0;
      while k < n
        invariant 0 <= k <= n && index == old(index) + k && |bits| == |old(bits)|
        invariant Written() + Bits(left, n - k) == old(Written()) + Bits(value, n)
        invariant Unread() == old(Unread())[k..]
      {
        ghost var before := bits;
        bits := bits[index := left % 2 == 1];
        assert bits[..index + 1] == before[..index] + [left % 2 == 1];
        assert bits[..index + 1] + Bits(left / 2, n - k - 1) == before[..index] + Bits(left, n - k);
        left, k, index := left / 2, k + 1, index + 1;
      }
    }

    method ReadBits(n: nat) returns (value: nat)
      requires Valid() && index + n <= |bits|
      modifies this`index
      ensures Valid() && index == old(index) + n
      ensures value == Value(old(Unread())[..n]) && Unread() == old(Unread())[n..]
    {
      assert bits[index..index + n] == bits[index..][..n];
      value := Value(bits[index..index + n]);
      index := index + n;
    }

    method WriteEntry(e: Entry)
      requires Valid() && index + 10 <= |bits|
      modifies this
      ensures Valid() && index == old(index) + 10 && |bits| == |old(bits)|
      ensures Written() == old(Written()) + EntryBits(e) && Unread() == old(Unread())[10..]
    {
      WriteBits(e.kind, 2);
      WriteBits(e.code, 8);
    }

    method WriteSlot(ghost written: Binds, bind: Option<InputValue>)
      requires Valid() && index + 10 <= |bits| && Written() == Versioned(written)
      modifies this
      ensures Valid() && index == old(index) + 10 && |bits| == |old(bits)|
      ensures Written() == Versioned(written + [bind]) && Unread() == old(Unread())[10..]
    {
      OneMoreSlot(written, bind);
      WriteEntry(EntryOf(bind));
    }

    method ReadEntry() returns (e: Entry)
      requires Valid() && index + 10 <= |bits|
      modifies this`index
      ensures Valid() && index == old(index) + 10
      ensures Entries(old(Unread())) == [e] + Entries(Unread())
    {
      ghost var unread := Unread();
      var kind := ReadBits(2);
      var code := ReadBits(8);
      assert unread[2..][..8] == unread[2..10] && unread[2..][8..] == unread[10..];
      return Entry(kind, code);
    }

    /** Rounded up to whole bytes. */
    function ByteIndex(): nat
      reads this
    {
      (index + 7) / 8
    }
  }

  type Word = w: nat | w < 65536

  /** Some slot holds the key of this code; keys are of type 1. */
  ghost predicate KeyIn(binds: Binds, code: nat) {
    exists i | 0 <= i < |binds| :: binds[i] == Some(InputValue(1, code))
  }

  class InputBinds {
    const crc16: seq<Byte> -> Word
    const binds: array<Option<InputValue>>
    /** Keys that are bound; a key that no longer is maps to false. */
    var boundKeys: map<nat, bool>
    /** What the configuration holds. */
    var saved: seq<Byte>

    function IsKeyBound(key: nat): bool
      reads this
    {
      key in boundKeys && boundKeys[key]
    }

    /** No two slots share a value, and the index of bound keys agrees with a scan. */
    ghost predicate Valid()
      reads this, binds
    {
      && Distinct(binds[..])
      && forall code: nat :: IsKeyBound(code) <==> KeyIn(binds[..], code)
    }

    constructor (count: nat, crc16: seq<Byte> -> Word)
      ensures Valid() && fresh(binds) && binds[..] == Blank(count) && this.crc16 == crc16
    {
      this.crc16 := crc16;
      binds := new Option<InputValue>[count](_ => None);
      boundKeys, saved := map[], [];
      new;
      assert binds[..] == Blank(count);
    }

    method ClearAllBinds()
      modifies this`boundKeys, binds
      ensures Valid() && binds[..] == Blank(binds.Length)
    {
      for i := 0 to binds.Length
        invariant binds[..i] == Blank(i)
      {
        binds[i] := None;
        assert binds[..i + 1] == binds[..i] + [None];
      }
      assert binds[..] == binds[..binds.Length];
      boundKeys := map[];
    }

    /** Takes a value away from every slot that has it. */
    method Unbind(value: InputValue)
      modifies binds
      ensures binds[..] == Without(old(binds[..]), value)
    {
      for i := 0 to binds.Length
        invariant forall k | 0 <= k < i :: binds[k] == Without(old(binds[..]), value)[k]
        invariant forall k | i <= k < binds.Length :: binds[k] == old(binds[k])
      {
        if binds[i] == Some(value) {
          binds[i] := None;
        }
      }
      assert binds[..] == Without(old(binds[..]), value);
    }

    method SetBind(bind: nat, inputValue: Option<InputValue>)
      requires Valid() && bind < binds.Length
      modifies this`boundKeys, binds
      ensures Valid() && binds[..] == WithBind(old(binds[..]), bind, inputValue)
      // the slot has the value, nobody else has, and nothing else changes
      ensures binds[bind] == inputValue
      ensures forall i | 0 <= i < binds.Length && i != bind ::
                binds[i] == if inputValue.Some? && old(binds[i]) == inputValue then None else old(binds[i])
      ensures forall code: nat :: inputValue == Some(InputValue(1, code)) ==> IsKeyBound(code)
    {
      ghost var before := binds[..];
      if inputValue.Some? {
        Unbind(inputValue.value);
      }
      ghost var middle := binds[..];
      var curBind := binds[bind];
      if curBind.Some? && curBind.value.kind == KEY {
        boundKeys := boundKeys[curBind.value.code := false];
      }
      binds[bind] := inputValue;
      if inputValue.Some? && inputValue.value.kind == KEY {
        boundKeys := boundKeys[inputValue.value.code := true];
      }
      assert binds[..] == middle[bind := inputValue];
      WithBindKeepsDistinct(before, bind, inputValue);
      forall code: nat
        ensures IsKeyBound(code) <==> KeyIn(binds[..], code)
      {
        IndexFollows(before, bind, inputValue, code);
      }
    }

    /** The first slots are written, and behind them the stream is as it was at the start. */
    ghost predicate WrittenUpTo(stream: BitStream, i: nat, start: seq<bool>)
      requires i <= binds.Length && 8 + 10 * i <= |start|
      reads this, binds, stream
    {
      && stream.Valid() && stream.index == 8 + 10 * i && |stream.bits| == |start|
      && stream.Written() == Versioned(binds[..i]) && stream.Unread() == start[8 + 10 * i..]
    }

    method WriteNext(stream: BitStream, i: nat, ghost start: seq<bool>)
      requires i < binds.Length && 8 + 10 * (i + 1) <= |start| && WrittenUpTo(stream, i, start)
      modifies stream
      ensures WrittenUpTo(stream, i + 1, start)
    {
      assert binds[..i + 1] == binds[..i] + [binds[i]];
      stream.WriteSlot(binds[..i], binds[i]);
      DropTwice(start, 8 + 10 * i, 10);
    }

    method WriteSlots(stream: BitStream, ghost start: seq<bool>)
      requires 8 + 10 * binds.Length <= |start| && WrittenUpTo(stream, 0, start)
      modifies stream
      ensures WrittenUpTo(stream, binds.Length, start)
    {
      for i := 0 to binds.Length
        invariant WrittenUpTo(stream, i, start)
      {
        WriteNext(stream, i, start);
      }
    }

    /** Version one, then ten bits a slot. */
    method WriteAll(stream: BitStream)
      requires stream.Valid() && stream.index == 0 && |stream.bits| >= 8 + 10 * binds.Length
      modifies stream
      ensures stream.Valid() && stream.index == 8 + 10 * binds.Length && |stream.bits| == |old(stream.bits)|
      ensures stream.Written() == Versioned(binds[..])
      ensures stream.Unread() == old(stream.bits)[8 + 10 * binds.Length..]
    {
      ghost var start := stream.bits;
      stream.WriteBits(1, 8);
      assert binds[..0] == [];
      WriteSlots(stream, start);
      assert binds[..binds.Length] == binds[..];
    }

    /** The written bits in whole bytes, then the checksum. */
    method ToArray() returns (ret: seq<Byte>)
      ensures ret == Sealed(ToBytes(Payload(binds[..])))
      // the slots in ten bits each, then the checksum of the bytes before it, high byte first
      ensures |ret| >= 2 && LaidOut(ret[..|ret| - 2], binds[..])
      ensures ret[|ret| - 2] as int * 256 + ret[|ret| - 1] as int == crc16(ret[..|ret| - 2])
    {
      PayloadIsLaidOut(binds[..]);
      var stream := new BitStream(Zeros(8 * (2 * binds.Length + 1)));
      WriteAll(stream);
      var end := 8 * stream.ByteIndex();
      WholeBytes(stream.bits, stream.index, end);
      assert stream.bits[..end] == Payload(binds[..]);
      return Sealed(ToBytes(stream.bits[..end]));
    }

    function Sealed(data: seq<Byte>): (r: seq<Byte>)
      ensures |r| == |data| + 2 && r[..|data|] == data && Checksum(r) == crc16(data)
    {
      var checksum := crc16(data);
      data + [checksum / 256, checksum % 256]
    }

    /** What the last two bytes say the checksum is. */
    static function Checksum(buf: seq<Byte>): Word
      requires |buf| >= 2
    {
      buf[|buf| - 2] as int * 256 + buf[|buf| - 1] as int
    }

    /** Entries are read while ten bits are left. */
    method ReadAll(stream: BitStream)
      requires stream.Valid() && Valid() && binds[..] == Blank(binds.Length)
      modifies stream`index, this`boundKeys, binds
      ensures Valid() && binds[..] == Load(binds.Length, Entries(old(stream.Unread())))
    {
      ghost var entries := Entries(stream.Unread());
      var idx := 0;
      assert entries[..0] == [];
      while |stream.bits| - stream.index >= 10
        invariant stream.Valid() && Valid() && 0 <= idx <= |entries|
        invariant Entries(stream.Unread()) == entries[idx..]
        invariant binds[..] == Load(binds.Length, entries[..idx])
        decreases |stream.bits| - stream.index
      {
        ghost var next := entries[..idx + 1];
        var e := stream.ReadEntry();
        assert entries[idx..][1..] == entries[idx + 1..] && entries[idx] == e;
        assert next[..idx] == entries[..idx] && next[idx] == e;
        if idx < binds.Length && e.kind != 0 {
          SetBind(idx, Some(InputValue(e.kind, e.code)));
        }
        idx := idx + 1;
      }
      assert entries[..idx] == entries;
    }

    /** Restores saved bindings. Anything too short or with a wrong checksum is refused and
        changes nothing; a version before one is saved again in the current form. */
    method FromArray(buf: seq<Byte>) returns (ok: bool)
      requires Valid()
      modifies this`boundKeys, this`saved, binds
      ensures Valid()
      ensures ok <==>
                |buf| >= 3 && buf[|buf| - 2] as int * 256 + buf[|buf| - 1] as int == crc16(buf[..|buf| - 2])
      ensures !ok ==> binds[..] == old(binds[..]) && boundKeys == old(boundKeys) && saved == old(saved)
      ensures ok ==> binds[..] == Load(binds.Length, Entries(FromBytes(buf[..|buf| - 2])[8..]))
      ensures ok ==> AllRestored(binds[..], Entries(FromBytes(buf[..|buf| - 2])[8..]))
      ensures ok ==>
                saved == if buf[0] < 1 then Sealed(ToBytes(Payload(binds[..]))) else old(saved)
    {
      if |buf| < 3 || crc16(buf[..|buf| - 2]) != Checksum(buf) {
        return false;
      }
      var stream := new BitStream(FromBytes(buf[..|buf| - 2]));
      assert stream.Unread() == stream.bits;
      VersionByte(buf[..|buf| - 2]);
      var version := stream.ReadBits(8);
      ClearAllBinds();
      ReadAll(stream);
      LoadWrittenOut(binds.Length, Entries(FromBytes(buf[..|buf| - 2])[8..]));
      if version < 1 {
        saved := ToArray();
      }
      return true;
    }
  }

  lemma DropTwice(bits: seq<bool>, a: nat, b: nat)
    requires a + b <= |bits|
    ensures bits[a..][b..] == bits[a + b..]
  {
  }

  lemma SplitAt(bits: seq<bool>, index: nat, end: nat)
    requires index <= end <= |bits|
    ensures bits[..end] == bits[..index] + bits[index..][..end - index]
  {
  }

  lemma SomeZeros(n: nat, index: nat, k: nat)
    requires index + k <= n
    ensures Zeros(n)[index..][..k] == Zeros(k)
  {
  }

  lemma PaddingIsRest(index: nat, end: nat)
    requires end == (index + 7) / 8 * 8
    ensures index <= end && end - index == Padding(index)
  {
  }

  /** What was written, up to the end of its last byte, of a buffer that was all zeros. */
  lemma WholeBytes(bits: seq<bool>, index: nat, end: nat)
    requires index <= |bits| && bits[index..] == Zeros(|bits|)[index..]
    requires end == (index + 7) / 8 * 8 <= |bits|
    ensures bits[..end] == bits[..index] + Zeros(Padding(index))
  {
    PaddingIsRest(index, end);
    SplitAt(bits, index, end);
    SomeZeros(|bits|, index, end - index);
  }

  /** Which keys a slot change binds: its own, and whatever was bound and not displaced. */
  lemma IndexFollows(before: Binds, bind: nat, value: Option<InputValue>, code: nat)
    requires bind < |before| && Distinct(before)
    ensures var middle := if value.Some? then Without(before, value.value) else before;
            KeyIn(WithBind(before, bind, value), code) <==>
            (value == Some(InputValue(KEY, code))
             || (KeyIn(before, code) && middle[bind] != Some(InputValue(KEY, code))))
  {
    var key := Some(InputValue(KEY, code));
    var after := WithBind(before, bind, value);
    var middle := if value.Some? then Without(before, value.value) else before;
    if value == key {
      assert after[bind] == key;
    } else {
      if i :| 0 <= i < |before| && before[i] == key && middle[bind] != key {
        assert middle[i] == key && after[i] == key;
      }
      if i :| 0 <= i < |after| && after[i] == key {
        assert i != bind && before[i] == key;
        assert middle[bind] != key by {
          assert middle[i] == key;
        }
      }
    }
  }

  /** Saving and restoring: the bindings come back exactly when they were encodable. */
  method SaveAndRestore(b: InputBinds) returns (ok: bool)
    requires b.Valid()
    modifies b`boundKeys, b`saved, b.binds
    ensures b.Valid() && ok && b.saved == old(b.saved)
    ensures b.binds[..] == old(b.binds[..]) <==> Encodable(old(b.binds[..]))
  {
    ghost var binds := b.binds[..];
    var ret := b.ToArray();
    var data := ret[..|ret| - 2];
    assert data == ToBytes(Payload(binds));
    PayloadReadsBack(binds);
    RestoresIffEncodable(binds);
    ok := b.FromArray(ret);
  }
}
