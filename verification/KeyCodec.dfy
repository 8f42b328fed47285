/** The protobuf codec of the derivable public key (crypto/derivable/keys.pb.go). Strings are byte sequences. */
module KeyCodec {
  import opened Common

  datatype PubKey = PubKey(moduleAddress: Bytes, moduleName: Bytes, functionName: Bytes, abstractPublicKey: Bytes)

  const EMPTY_KEY := PubKey([], [], [], [])

  const TWO_64 := 0x1_0000_0000_0000_0000
  const TWO_63 := 0x8000_0000_0000_0000
  const TWO_32 := 0x1_0000_0000
  const TWO_31 := 0x8000_0000

  // ---- encoding -------------------------------------------------------------------------------

  /** Base 128, least significant group first, with a continuation bit on all but the last byte. */
  function Varint(v: nat): (b: Bytes)
    ensures |b| > 0
    decreases v
  {
    if v < 128 then [v as uint8] else [Group(v)] + Varint(v / 128)
  }

  /** The lowest seven bits, with the continuation bit. */
  function Group(v: nat): uint8 { (v % 128 + 128) as uint8 }

  lemma VarintStep(v: nat)
    ensures if v < 128 then Varint(v) == [v as uint8] else Varint(v) == [Group(v)] + Varint(v / 128) && v / 128 < v
  {
  }

  /** A length-delimited record; empty fields are not written. */
  function Field(tag: uint8, bytes: Bytes): Bytes {
    if bytes == [] then [] else [tag] + Varint(|bytes|) + bytes
  }

  function Encoding(m: PubKey): Bytes {
    Field(0x0a, m.moduleAddress) + Field(0x12, m.moduleName) + Field(0x1a, m.functionName) +
    Field(0x22, m.abstractPublicKey)
  }

  /** `math_bits.Len64`. */
  function BitLen(v: nat): nat {
    if v == 0 then 0 else 1 + BitLen(v / 2)
  }

  /** `sovKeys`; `x|1` has the bits of `x`, or one bit for zero. */
  function Sov(v: nat): nat {
    (BitLen(if v == 0 then 1 else v) + 6) / 7
  }

  lemma BitLen7(v: nat)
    requires v >= 128
    ensures BitLen(v) == 7 + BitLen(v / 128)
  {
    assert v / 2 / 2 / 2 / 2 / 2 / 2 / 2 == v / 128;
    assert BitLen(v) == 1 + BitLen(v / 2);
    assert BitLen(v / 2) == 1 + BitLen(v / 2 / 2);
    assert BitLen(v / 2 / 2) == 1 + BitLen(v / 2 / 2 / 2);
    assert BitLen(v / 2 / 2 / 2) == 1 + BitLen(v / 2 / 2 / 2 / 2);
    assert BitLen(v / 2 / 2 / 2 / 2) == 1 + BitLen(v / 2 / 2 / 2 / 2 / 2);
    assert BitLen(v / 2 / 2 / 2 / 2 / 2) == 1 + BitLen(v / 2 / 2 / 2 / 2 / 2 / 2);
    assert BitLen(v / 2 / 2 / 2 / 2 / 2 / 2) == 1 + BitLen(v / 2 / 2 / 2 / 2 / 2 / 2 / 2);
  }

  lemma BitLenSmall(v: nat)
    requires 0 < v < 128
    ensures 1 <= BitLen(v) <= 7
  {
    assert v / 2 / 2 / 2 / 2 / 2 / 2 / 2 == 0;
    assert BitLen(v) == 1 + BitLen(v / 2);
    assert BitLen(v / 2) <= 1 + BitLen(v / 2 / 2);
    assert BitLen(v / 2 / 2) <= 1 + BitLen(v / 2 / 2 / 2);
    assert BitLen(v / 2 / 2 / 2) <= 1 + BitLen(v / 2 / 2 / 2 / 2);
    assert BitLen(v / 2 / 2 / 2 / 2) <= 1 + BitLen(v / 2 / 2 / 2 / 2 / 2);
    assert BitLen(v / 2 / 2 / 2 / 2 / 2) <= 1 + BitLen(v / 2 / 2 / 2 / 2 / 2 / 2);
    assert BitLen(v / 2 / 2 / 2 / 2 / 2 / 2) <= 1 + BitLen(v / 2 / 2 / 2 / 2 / 2 / 2 / 2);
  }

  /** The size formula is the length of the varint. */
  lemma {:induction false} SovIsLength(v: nat)
    ensures Sov(v) == |Varint(v)|
    decreases v
  {
    if v < 128 {
      if v > 0 { BitLenSmall(v); }
      assert BitLen(1) == 1 + BitLen(0);
    } else {
      BitLen7(v);
      SovIsLength(v / 128);
    }
  }

  /** `s` with `bytes` written at `at`. */
  ghost function Spliced(s: Bytes, at: nat, bytes: Bytes): (r: Bytes)
    requires at + |bytes| <= |s|
    ensures |r| == |s|
  {
    s[..at] + bytes + s[at + |bytes|..]
  }

  /** Writing in front of what was just written. */
  lemma SplicedBefore(s: Bytes, at: nat, front: Bytes, back: Bytes)
    requires at + |front| + |back| <= |s|
    ensures Spliced(Spliced(s, at + |front|, back), at, front) == Spliced(s, at, front + back)
  {
  }

  /** `encodeVarintKeys`: writes the varint so that it ends at `offset`. */
  method EncodeVarint(buf: array<uint8>, offset: nat, v: nat) returns (base: nat)
    requires Sov(v) <= offset <= buf.Length
    modifies buf
    ensures base == offset - Sov(v) && base + |Varint(v)| == offset && buf[..] == Spliced(old(buf[..]), base, Varint(v))
  {
    SovIsLength(v);
    base := offset - Sov(v);
    hide Sov, Varint, Group;
    ghost var all := Varint(v);
    var at, w := base, v;
    while w >= 128
      invariant base <= at < offset && all[at - base..] == Varint(w)
      invariant forall k :: base <= k < at ==> buf[k] == all[k - base]
      invariant forall k :: 0 <= k < buf.Length && !(base <= k < at) ==> buf[k] == old(buf[k])
      decreases w
    {
      VarintStep(w);
      buf[at] := Group(w);
      assert all[at - base] == Varint(w)[0];
      assert all[at + 1 - base..] == Varint(w)[1..] == Varint(w / 128);
      w := w / 128;
      at := at + 1;
    }
    VarintStep(w);
    assert all[at - base] == Varint(w)[0];
    buf[at] := w as uint8;
    assert buf[..] == Spliced(old(buf[..]), base, all);
  }

  /** `copy` into the middle of the buffer. */
  method CopyBytes(buf: array<uint8>, i: nat, bytes: Bytes)
    requires i + |bytes| <= buf.Length
    modifies buf
    ensures buf[..] == Spliced(old(buf[..]), i, bytes)
  {
    forall k | i <= k < i + |bytes| {
      buf[k] := bytes[k - i];
    }
  }

  function FieldSize(n: nat): nat { if n > 0 then 1 + n + Sov(n) else 0 }

  /** `Size`. */
  function Size(m: PubKey): nat {
    FieldSize(|m.moduleAddress|) + FieldSize(|m.moduleName|) + FieldSize(|m.functionName|) +
    FieldSize(|m.abstractPublicKey|)
  }

  lemma FieldSizeExact(tag: uint8, bytes: Bytes)
    ensures |Field(tag, bytes)| == FieldSize(|bytes|)
  {
    SovIsLength(|bytes|);
  }

  /** `Size` is the exact length of the encoding. */
  lemma SizeExact(m: PubKey)
    ensures Size(m) == |Encoding(m)|
  {
    FieldSizeExact(0x0a, m.moduleAddress);
    FieldSizeExact(0x12, m.moduleName);
    FieldSizeExact(0x1a, m.functionName);
    FieldSizeExact(0x22, m.abstractPublicKey);
  }

  /** One field, written backwards so that it ends at `end`. */
  method WriteField(buf: array<uint8>, end: nat, tag: uint8, bytes: Bytes) returns (start: nat)
    requires FieldSize(|bytes|) <= end <= buf.Length
    modifies buf
    ensures start == end - FieldSize(|bytes|) && start + |Field(tag, bytes)| == end
    ensures buf[..] == Spliced(old(buf[..]), start, Field(tag, bytes))
  {
    hide Sov, Varint, Spliced, Field;
    ghost var was := buf[..];
    FieldSizeExact(tag, bytes);
    FieldParts(tag, bytes);
    if |bytes| == 0 {
      SplicedEmpty(was, end);
      return end;
    }
    var i := end - |bytes|;
    CopyBytes(buf, i, bytes);
    i := EncodeVarint(buf, i, |bytes|);
    SplicedBefore(was, i, Varint(|bytes|), bytes);
    start := i - 1;
    WriteByte(buf, start, tag);
    SplicedBefore(was, start, [tag], Varint(|bytes|) + bytes);
  }

  lemma FieldParts(tag: uint8, bytes: Bytes)
    ensures if bytes == [] then Field(tag, bytes) == [] else Field(tag, bytes) == [tag] + (Varint(|bytes|) + bytes)
  {
  }

  lemma SplicedEmpty(s: Bytes, at: nat)
    requires at <= |s|
    ensures Spliced(s, at, []) == s
  {
  }

  method WriteByte(buf: array<uint8>, at: nat, b: uint8)
    requires at < buf.Length
    modifies buf
    ensures buf[..] == Spliced(old(buf[..]), at, [b])
  {
    buf[at] := b;
  }

  /** `MarshalToSizedBuffer`: fills the end of the buffer, last field first. */
  method MarshalToSizedBuffer(m: PubKey, buf: array<uint8>) returns (n: nat)
    requires Size(m) <= buf.Length
    modifies buf
    ensures n == Size(m) == |Encoding(m)|
    ensures buf[..] == old(buf[..])[..buf.Length - n] + Encoding(m)
  {
    SizeExact(m);
    hide Sov, Varint, FieldSize, Field, Spliced;
    ghost var was := buf[..];
    ghost var f1, f2 := Field(0x0a, m.moduleAddress), Field(0x12, m.moduleName);
    ghost var f3, f4 := Field(0x1a, m.functionName), Field(0x22, m.abstractPublicKey);
    var i := WriteField(buf, buf.Length, 0x22, m.abstractPublicKey);
    i := WriteField(buf, i, 0x1a, m.functionName);
    SplicedBefore(was, i, f3, f4);
    i := WriteField(buf, i, 0x12, m.moduleName);
    SplicedBefore(was, i, f2, f3 + f4);
    i := WriteField(buf, i, 0x0a, m.moduleAddress);
    SplicedBefore(was, i, f1, f2 + (f3 + f4));
    assert f1 + (f2 + (f3 + f4)) == f1 + f2 + f3 + f4;
    n := buf.Length - i;
    SplicedEnd(was, i, Encoding(m));
  }

  lemma SplicedEnd(s: Bytes, at: nat, bytes: Bytes)
    requires at + |bytes| == |s|
    ensures Spliced(s, at, bytes) == s[..at] + bytes
  {
  }

  /** `Marshal`. */
  method Marshal(m: PubKey) returns (data: Bytes)
    ensures data == Encoding(m)
  {
    var buf := new uint8[Size(m)](_ => 0);
    var n := MarshalToSizedBuffer(m, buf);
    data := buf[..n];
  }

  // ---- decoding -------------------------------------------------------------------------------

  datatype DecodeError =
    | IntOverflow
    | UnexpectedEOF
    | InvalidLength
    | EndGroup
    | IllegalTag
    | WrongWireType
    | UnexpectedEndOfGroup
    | IllegalWireType

  datatype Read = Read(value: nat, next: nat) | Unread(error: DecodeError)

  datatype Parsed = Parsed(key: PubKey) | Unparsed(error: DecodeError)

  function Pow2(n: nat): nat { if n == 0 then 1 else 2 * Pow2(n - 1) }

  /** The varint loop: seven bits a byte into a `uint64`, at most ten bytes. The groups do not overlap, so or-ing them
      in is addition. */
  function ReadVarint(data: Bytes, i: nat, shift: nat, acc: nat): (r: Read)
    ensures r.Read? ==> i < r.next <= |data|
    decreases 70 - shift
  {
    if shift >= 64 then Unread(IntOverflow)
    else if i >= |data| then Unread(UnexpectedEOF)
    else
      var acc' := (acc + (data[i] as nat % 128) * Pow2(shift)) % TWO_64;
      if data[i] < 128 then Read(acc', i + 1) else ReadVarint(data, i + 1, shift + 7, acc')
  }

  /** `int32(wire >> 3)`. */
  function FieldNumber(wire: nat): int { (wire / 8 + TWO_31) % TWO_32 - TWO_31 }

  /** The length and extent checks of a length-delimited field: where it ends. */
  function ReadLength(data: Bytes, i: nat): (r: Read)
    ensures r.Read? ==> i < r.next <= r.value <= |data|
  {
    var len := ReadVarint(data, i, 0, 0);
    if len.Unread? then len
    else if len.value >= TWO_63 then Unread(InvalidLength)
    else if len.next + len.value >= TWO_63 then Unread(InvalidLength)
    else if len.next + len.value > |data| then Unread(UnexpectedEOF)
    else Read(len.next + len.value, len.next)
  }

  function SetField(m: PubKey, field: int, bytes: Bytes): PubKey {
    if field == 1 then m.(moduleAddress := bytes)
    else if field == 2 then m.(moduleName := bytes)
    else if field == 3 then m.(functionName := bytes)
    else m.(abstractPublicKey := bytes)
  }

  /** `skipKeys` from `i` on, inside `depth` groups: where the unknown field ends, possibly beyond the data. */
  function SkipFrom(d: Bytes, i: nat, depth: nat): (r: Read)
    ensures r.Read? ==> i < r.next
    decreases |d| - i
  {
    if i >= |d| then Unread(UnexpectedEOF)
    else
      var wire := ReadVarint(d, i, 0, 0);
      if wire.Unread? then wire
      else
        var step := SkipValue(d, wire.next, wire.value % 8, depth);
        if step.Unread? then step
        else if step.next >= TWO_63 then Unread(InvalidLength)
        else if step.value == 0 then Read(0, step.next)
        else SkipFrom(d, step.next, step.value)
  }

  /** The value of one skipped field: the new depth and the new index. */
  function SkipValue(d: Bytes, i: nat, wireType: nat, depth: nat): (r: Read)
    ensures r.Read? ==> i <= r.next
  {
    if wireType == 0 then
      var v := ReadVarint(d, i, 0, 0);
      if v.Unread? then v else Read(depth, v.next)
    else if wireType == 1 then Read(depth, i + 8)
    else if wireType == 2 then
      var len := ReadVarint(d, i, 0, 0);
      if len.Unread? then len
      else if len.value >= TWO_63 then Unread(InvalidLength)
      else Read(depth, len.next + len.value)
    else if wireType == 3 then Read(depth + 1, i)
    else if wireType == 4 then if depth == 0 then Unread(UnexpectedEndOfGroup) else Read(depth - 1, i)
    else if wireType == 5 then Read(depth, i + 4)
    else Unread(IllegalWireType)
  }

  /** One field: the message with it, and where it ends. */
  datatype Step = Step(key: PubKey, next: nat) | NoStep(error: DecodeError)

  function DecodeField(data: Bytes, i: nat, m: PubKey): (s: Step)
    ensures s.Step? ==> i < s.next <= |data|
  {
    var wire := ReadVarint(data, i, 0, 0);
    if wire.Unread? then NoStep(wire.error)
    else
      var field, wireType := FieldNumber(wire.value), wire.value % 8;
      if wireType == 4 then NoStep(EndGroup)
      else if field <= 0 then NoStep(IllegalTag)
      else if field <= 4 then
        if wireType != 2 then NoStep(WrongWireType)
        else
          var len := ReadLength(data, wire.next);
          if len.Unread? then NoStep(len.error) else Step(SetField(m, field, data[len.next..len.value]), len.value)
      else
        var skip := SkipFrom(data[i..], 0, 0);
        if skip.Unread? then NoStep(skip.error)
        else if i + skip.next >= TWO_63 then NoStep(InvalidLength)
        else if i + skip.next > |data| then NoStep(UnexpectedEOF)
        else Step(m, i + skip.next)
  }

  /** What `Unmarshal` makes of the data from `i` on, on top of the message so far. */
  function Decode(data: Bytes, i: nat, m: PubKey): Parsed
    requires i <= |data|
    decreases |data| - i
  {
    if i == |data| then Parsed(m)
    else
      var s := DecodeField(data, i, m);
      if s.NoStep? then Unparsed(s.error) else Decode(data, s.next, s.key)
  }

  // ---- the loops ------------------------------------------------------------------------------

  /** The varint loop of `Unmarshal` and `skipKeys`. */
  method ReadVarintAt(data: Bytes, start: nat) returns (r: Read)
    ensures r == ReadVarint(data, start, 0, 0)
  {
    var i: nat, shift: nat, acc: nat := start, 0, 0;
    while true
      invariant start <= i && ReadVarint(data, start, 0, 0) == ReadVarint(data, i, shift, acc)
      decreases 70 - shift
    {
      if shift >= 64 {
        return Unread(IntOverflow);
      }
      if i >= |data| {
        return Unread(UnexpectedEOF);
      }
      var b := data[i];
      i := i + 1;
      acc := (acc + (b as nat % 128) * Pow2(shift)) % TWO_64;
      if b < 128 {
        return Read(acc, i);
      }
      shift := shift + 7;
    }
  }

  /** `skipKeys`. */
  method Skip(d: Bytes) returns (r: Read)
    ensures r == SkipFrom(d, 0, 0)
  {
    hide ReadVarint;
    var i: nat, depth: nat := 0, 0;
    while i < |d|
      invariant SkipFrom(d, 0, 0) == SkipFrom(d, i, depth)
      decreases |d| - i
    {
      var wire := ReadVarintAt(d, i);
      if wire.Unread? {
        return wire;
      }
      i := wire.next;
      var wireType := wire.value % 8;
      if wireType == 0 {
        var v := ReadVarintAt(d, i);
        if v.Unread? {
          return v;
        }
        i := v.next;
      } else if wireType == 1 {
        i := i + 8;
      } else if wireType == 2 {
        var len := ReadVarintAt(d, i);
        if len.Unread? {
          return len;
        }
        if len.value >= TWO_63 {
          return Unread(InvalidLength);
        }
        i := len.next + len.value;
      } else if wireType == 3 {
        depth := depth + 1;
      } else if wireType == 4 {
        if depth == 0 {
          return Unread(UnexpectedEndOfGroup);
        }
        depth := depth - 1;
      } else if wireType == 5 {
        i := i + 4;
      } else {
        return Unread(IllegalWireType);
      }
      if i >= TWO_63 {
        return Unread(InvalidLength);
      }
      if depth == 0 {
        return Read(0, i);
      }
    }
    return Unread(UnexpectedEOF);
  }

  /** `Unmarshal` into a fresh message. */
  method Unmarshal(data: Bytes) returns (r: Parsed)
    ensures r == Decode(data, 0, EMPTY_KEY)
  {
    hide ReadVarint, SkipFrom;
    var i: nat, m := 0, EMPTY_KEY;
    while i < |data|
      invariant i <= |data| && Decode(data, 0, EMPTY_KEY) == Decode(data, i, m)
      decreases |data| - i
    {
      var s := ReadField(data, i, m);
      if s.NoStep? {
        return Unparsed(s.error);
      }
      i, m := s.next, s.key;
    }
    return Parsed(m);
  }

  /** One turn of the loop of `Unmarshal`. */
  method ReadField(data: Bytes, start: nat, m: PubKey) returns (s: Step)
    requires start < |data|
    ensures s == DecodeField(data, start, m)
  {
    hide ReadVarint, SkipFrom;
    var wire := ReadVarintAt(data, start);
    if wire.Unread? {
      return NoStep(wire.error);
    }
    var field, wireType := FieldNumber(wire.value), wire.value % 8;
    if wireType == 4 {
      return NoStep(EndGroup);
    }
    if field <= 0 {
      return NoStep(IllegalTag);
    }
    if field > 4 {
      var skip := Skip(data[start..]);
      if skip.Unread? {
        return NoStep(skip.error);
      }
      if start + skip.next >= TWO_63 {
        return NoStep(InvalidLength);
      }
      if start + skip.next > |data| {
        return NoStep(UnexpectedEOF);
      }
      return Step(m, start + skip.next);
    }
    if wireType != 2 {
      return NoStep(WrongWireType);
    }
    var len := ReadVarintAt(data, wire.next);
    if len.Unread? {
      return NoStep(len.error);
    }
    if len.value >= TWO_63 || len.next + len.value >= TWO_63 {
      return NoStep(InvalidLength);
    }
    var post := len.next + len.value;
    if post > |data| {
      return NoStep(UnexpectedEOF);
    }
    s := Step(SetField(m, field, data[len.next..post]), post);
  }

  // ---- round trip -----------------------------------------------------------------------------

  lemma {:induction false} Pow2Adds(a: nat, b: nat)
    ensures Pow2(a + b) == Pow2(a) * Pow2(b)
    decreases b
  {
    if b > 0 {
      Pow2Adds(a, b - 1);
      assert Pow2(a + b) == 2 * Pow2(a + (b - 1));
      assert Pow2(a) * (2 * Pow2(b - 1)) == 2 * (Pow2(a) * Pow2(b - 1));
    }
  }

  lemma Pow2Values()
    ensures Pow2(7) == 128 && Pow2(64) == TWO_64
  {
    assert Pow2(4) == 16;
    Pow2Adds(4, 4);
    Pow2Adds(8, 8);
    Pow2Adds(16, 16);
    Pow2Adds(32, 32);
    assert Pow2(7) == 2 * Pow2(6) == 4 * Pow2(5) == 8 * Pow2(4);
  }

  lemma {:induction false} Pow2Rises(a: nat, b: nat)
    requires a <= b
    ensures 1 <= Pow2(a) <= Pow2(b)
    decreases b
  {
    if a < b {
      Pow2Rises(a, b - 1);
    } else if a > 0 {
      Pow2Rises(a - 1, b - 1);
    }
  }

  lemma Distributes(a: nat, b: nat, p: nat)
    ensures (a + b) * p == a * p + b * p
  {
  }

  lemma Regroups(q: nat, p: nat)
    ensures q * (128 * p) == (128 * q) * p
  {
  }

  lemma ScalesUp(r: nat, p: nat)
    requires r < 128
    ensures r * p <= 127 * p
  {
  }

  lemma TimesAtLeast(q: nat, p: nat)
    requires q >= 1
    ensures p <= q * p
  {
  }

  /** One group of the varint: the accumulator stays below the next group's place. */
  lemma GroupFits(acc: nat, q: nat, r: nat, p: nat)
    requires acc < p && r < 128 && acc + (128 * q + r) * p < TWO_64
    ensures acc + r * p < TWO_64 && acc + r * p < 128 * p
    ensures acc + r * p + q * (128 * p) == acc + (128 * q + r) * p
  {
    Distributes(128 * q, r, p);
    Regroups(q, p);
    ScalesUp(r, p);
  }

  lemma Groups(v: nat)
    requires v >= 128
    ensures v == 128 * (v / 128) + v % 128 && v / 128 >= 1
    ensures Group(v) >= 128 && Group(v) as nat % 128 == v % 128
  {
  }

  lemma StartsWith(data: Bytes, i: nat, b: uint8, rest: Bytes)
    requires i + 1 + |rest| <= |data| && data[i..i + 1 + |rest|] == [b] + rest
    ensures data[i] == b && data[i + 1..i + 1 + |rest|] == rest
  {
    assert data[i] == data[i..i + 1 + |rest|][0];
    assert data[i + 1..i + 1 + |rest|] == data[i..i + 1 + |rest|][1..];
  }

  lemma NextShift(q: nat, shift: nat, acc: nat)
    requires q >= 1 && shift < 64 && acc + q * Pow2(shift + 7) < TWO_64
    ensures shift + 7 < 64
  {
    Pow2Values();
    TimesAtLeast(q, Pow2(shift + 7));
    if shift + 7 >= 64 {
      Pow2Rises(64, shift + 7);
    }
  }

  /** Reading back a written varint, wherever it stands, for every 64-bit value. */
  lemma {:induction false} ReadsWritten(data: Bytes, i: nat, v: nat, shift: nat, acc: nat)
    requires i + |Varint(v)| <= |data| && data[i..i + |Varint(v)|] == Varint(v)
    requires shift < 64 && acc < Pow2(shift) && acc + v * Pow2(shift) < TWO_64
    ensures ReadVarint(data, i, shift, acc) == Read(acc + v * Pow2(shift), i + |Varint(v)|)
    decreases v
  {
    hide Varint, Group, Pow2;
    VarintStep(v);
    var p := Pow2(shift);
    if v < 128 {
      StartsWith(data, i, v as uint8, []);
      ReadsLast(data, i, v, shift, acc);
    } else {
      var q, r := v / 128, v % 128;
      Groups(v);
      StartsWith(data, i, Group(v), Varint(q));
      GroupFits(acc, q, r, p);
      Pow2Values();
      Pow2Adds(shift, 7);
      NextShift(q, shift, acc + r * p);
      ReadsGroup(data, i, r, shift, acc);
      ReadsWritten(data, i + 1, q, shift + 7, acc + r * p);
    }
  }

  lemma ReadsLast(data: Bytes, i: nat, v: nat, shift: nat, acc: nat)
    requires i < |data| && v < 128 && data[i] as nat == v && shift < 64 && acc + v * Pow2(shift) < TWO_64
    ensures ReadVarint(data, i, shift, acc) == Read(acc + v * Pow2(shift), i + 1)
  {
    hide Pow2;
    Small(acc + v * Pow2(shift));
  }

  lemma ReadsGroup(data: Bytes, i: nat, r: nat, shift: nat, acc: nat)
    requires i < |data| && data[i] >= 128 && data[i] as nat % 128 == r && shift < 64 && acc + r * Pow2(shift) < TWO_64
    ensures ReadVarint(data, i, shift, acc) == ReadVarint(data, i + 1, shift + 7, acc + r * Pow2(shift))
  {
    hide Pow2;
    Small(acc + r * Pow2(shift));
  }

  lemma Small(x: nat)
    requires x < TWO_64
    ensures x % TWO_64 == x
  {
  }

  lemma ReadsVarint(data: Bytes, i: nat, v: nat)
    requires v < TWO_64 && i + |Varint(v)| <= |data| && data[i..i + |Varint(v)|] == Varint(v)
    ensures ReadVarint(data, i, 0, 0) == Read(v, i + |Varint(v)|)
  {
    assert Pow2(0) == 1;
    ReadsWritten(data, i, v, 0, 0);
  }

  /** The tag of a field number for length-delimited records. */
  function Tag(field: nat): uint8
    requires 1 <= field <= 4
  {
    (8 * field + 2) as uint8
  }

  lemma ReadsTag(data: Bytes, i: nat, field: nat)
    requires 1 <= field <= 4 && i < |data| && data[i] == Tag(field)
    ensures var w := ReadVarint(data, i, 0, 0);
            w.Read? && w.next == i + 1 && FieldNumber(w.value) == field && w.value % 8 == 2
  {
    var v := 8 * field + 2;
    assert Pow2(0) == 1;
    ReadsLast(data, i, v, 0, 0);
  }

  lemma Slices(data: Bytes, i: nat, a: Bytes, b: Bytes)
    requires i + |a| + |b| <= |data| && data[i..i + |a| + |b|] == a + b
    ensures data[i..i + |a|] == a && data[i + |a|..i + |a| + |b|] == b
  {
    assert data[i..i + |a|] == data[i..i + |a| + |b|][..|a|];
    assert data[i + |a|..i + |a| + |b|] == data[i..i + |a| + |b|][|a|..];
  }

  /** A written field, read on top of any message. */
  lemma ReadsField(data: Bytes, i: nat, field: nat, bytes: Bytes, m: PubKey)
    requires 1 <= field <= 4 && bytes != [] && |data| < TWO_63
    requires var f := Field(Tag(field), bytes);
             i + |f| <= |data| && data[i..i + |f|] == f
    ensures DecodeField(data, i, m) == Step(SetField(m, field, bytes), i + |Field(Tag(field), bytes)|)
  {
    hide Varint, ReadVarint, Tag, FieldNumber, SkipFrom;
    var len := Varint(|bytes|);
    FieldParts(Tag(field), bytes);
    hide Field;
    StartsWith(data, i, Tag(field), len + bytes);
    Slices(data, i + 1, len, bytes);
    ReadsTag(data, i, field);
    ReadsVarint(data, i + 1, |bytes|);
  }

  /** Reads over a field that may be empty. */
  lemma ReadsOptional(data: Bytes, i: nat, field: nat, bytes: Bytes, m: PubKey)
    requires 1 <= field <= 4 && |data| < TWO_63
    requires var f := Field(Tag(field), bytes);
             i + |f| <= |data| && data[i..i + |f|] == f
    ensures Decode(data, i, m) ==
              Decode(data, i + |Field(Tag(field), bytes)|, if bytes == [] then m else SetField(m, field, bytes))
  {
    hide DecodeField, Varint;
    if bytes != [] {
      ReadsField(data, i, field, bytes, m);
    }
  }

  /** The fields of `k` that are set, on top of those of `m`. */
  function Overlay(m: PubKey, k: PubKey): PubKey {
    PubKey(if k.moduleAddress == [] then m.moduleAddress else k.moduleAddress,
           if k.moduleName == [] then m.moduleName else k.moduleName,
           if k.functionName == [] then m.functionName else k.functionName,
           if k.abstractPublicKey == [] then m.abstractPublicKey else k.abstractPublicKey)
  }

  /** Reading over an encoded message overlays its fields. */
  lemma ReadsMessage(data: Bytes, i: nat, k: PubKey, m: PubKey)
    requires |data| < TWO_63 && i + |Encoding(k)| <= |data| && data[i..i + |Encoding(k)|] == Encoding(k)
    ensures Decode(data, i, m) == Decode(data, i + |Encoding(k)|, Overlay(m, k))
  {
    hide Field, Decode;
    var f1, f2 := Field(Tag(1), k.moduleAddress), Field(Tag(2), k.moduleName);
    var f3, f4 := Field(Tag(3), k.functionName), Field(Tag(4), k.abstractPublicKey);
    assert Encoding(k) == f1 + f2 + f3 + f4;
    hide Encoding, Tag;
    Slices(data, i, f1 + f2 + f3, f4);
    Slices(data, i, f1 + f2, f3);
    Slices(data, i, f1, f2);
    ReadsOptional(data, i, 1, k.moduleAddress, m);
    var m1 := if k.moduleAddress == [] then m else SetField(m, 1, k.moduleAddress);
    ReadsOptional(data, i + |f1|, 2, k.moduleName, m1);
    var m2 := if k.moduleName == [] then m1 else SetField(m1, 2, k.moduleName);
    ReadsOptional(data, i + |f1| + |f2|, 3, k.functionName, m2);
    var m3 := if k.functionName == [] then m2 else SetField(m2, 3, k.functionName);
    ReadsOptional(data, i + |f1| + |f2| + |f3|, 4, k.abstractPublicKey, m3);
  }

  /** `Unmarshal` inverts `Marshal`. */
  lemma RoundTrip(m: PubKey)
    requires |Encoding(m)| < TWO_63
    ensures Decode(Encoding(m), 0, EMPTY_KEY) == Parsed(m)
  {
    hide Encoding;
    var data := Encoding(m);
    assert data[0..0 + |data|] == data;
    ReadsMessage(data, 0, m, EMPTY_KEY);
    assert Overlay(EMPTY_KEY, m) == m;
  }

  /** Concatenated encodings merge: the last value of a field wins. */
  lemma Merges(a: PubKey, b: PubKey)
    requires |Encoding(a) + Encoding(b)| < TWO_63
    ensures Decode(Encoding(a) + Encoding(b), 0, EMPTY_KEY) == Parsed(Overlay(a, b))
  {
    hide Encoding;
    var data := Encoding(a) + Encoding(b);
    assert data[0..0 + |Encoding(a)|] == Encoding(a);
    assert data[|Encoding(a)|..|Encoding(a)| + |Encoding(b)|] == Encoding(b);
    ReadsMessage(data, 0, a, EMPTY_KEY);
    assert Overlay(EMPTY_KEY, a) == a;
    ReadsMessage(data, |Encoding(a)|, b, a);
  }
}
