/** What the public key's decoder does with fields it does not know (`skipKeys` in crypto/derivable/keys.pb.go): the
    wire format as a grammar, with nested groups and varints in any form, and the law that such fields do not matter.
    */
module UnknownFields {
  import opened Common
  import opened KeyCodec

  // ---- the wire format ------------------------------------------------------------------------

  /** At most ten bytes, all but the last with the continuation bit; leading zero groups are allowed. */
  ghost predicate IsVarint(b: Bytes) {
    0 < |b| <= 10 && b[|b| - 1] < 128 && forall k :: 0 <= k < |b| - 1 ==> b[k] >= 128
  }

  /** The number that the groups spell, before it is cut to 64 bits. */
  ghost function Spelled(b: Bytes): nat {
    if b == [] then 0 else b[0] as nat % 128 + 128 * Spelled(b[1..])
  }

  ghost function Value(b: Bytes): nat { Spelled(b) % TWO_64 }

  /** A list of fields. A group ends with any end tag: its number is not compared with that of the start. */
  datatype Fields =
    | NoFields
    | Number(tag: Bytes, value: Bytes, rest: Fields)
    | Fixed(tag: Bytes, bytes: Bytes, rest: Fields)
    | Blob(tag: Bytes, len: Bytes, bytes: Bytes, rest: Fields)
    | Group(tag: Bytes, inner: Fields, end: Bytes, rest: Fields)

  ghost predicate IsTag(b: Bytes, wireType: nat) { IsVarint(b) && Value(b) % 8 == wireType }

  ghost predicate WellFormed(fs: Fields) {
    match fs
    case NoFields => true
    case Number(tag, value, rest) => IsTag(tag, 0) && IsVarint(value) && WellFormed(rest)
    case Fixed(tag, bytes, rest) =>
      ((IsTag(tag, 1) && |bytes| == 8) || (IsTag(tag, 5) && |bytes| == 4)) && WellFormed(rest)
    case Blob(tag, len, bytes, rest) => IsTag(tag, 2) && IsVarint(len) && Value(len) == |bytes| && WellFormed(rest)
    case Group(tag, inner, end, rest) => IsTag(tag, 3) && WellFormed(inner) && IsTag(end, 4) && WellFormed(rest)
  }

  ghost function Wire(fs: Fields): Bytes {
    match fs
    case NoFields => []
    case Number(tag, value, rest) => tag + value + Wire(rest)
    case Fixed(tag, bytes, rest) => tag + bytes + Wire(rest)
    case Blob(tag, len, bytes, rest) => tag + len + bytes + Wire(rest)
    case Group(tag, inner, end, rest) => tag + Wire(inner) + end + Wire(rest)
  }

  ghost predicate Single(fs: Fields) { !fs.NoFields? && fs.rest == NoFields }

  /** `b` stands in `d` at `i`. */
  ghost predicate At(d: Bytes, i: nat, b: Bytes) {
    i + |b| <= |d| && d[i..i + |b|] == b
  }

  lemma AtSplit(d: Bytes, i: nat, a: Bytes, b: Bytes)
    ensures At(d, i, a + b) <==> At(d, i, a) && At(d, i + |a|, b)
  {
    if At(d, i, a + b) {
      Slices(d, i, a, b);
    }
    if At(d, i, a) && At(d, i + |a|, b) {
      assert d[i..i + |a| + |b|] == d[i..i + |a|] + d[i + |a|..i + |a| + |b|];
    }
  }

  // ---- varints --------------------------------------------------------------------------------

  lemma AddMod(x: nat, y: nat)
    ensures (x % TWO_64 + y) % TWO_64 == (x + y) % TWO_64
  {
    assert x == TWO_64 * (x / TWO_64) + x % TWO_64;
    var q := x / TWO_64;
    var z := x % TWO_64 + y;
    assert x + y == z + TWO_64 * q;
    ModShift(z, q);
  }

  lemma {:induction false} ModShift(z: nat, q: nat)
    ensures (z + TWO_64 * q) % TWO_64 == z % TWO_64
    decreases q
  {
    if q > 0 {
      ModShift(z, q - 1);
      assert z + TWO_64 * q == (z + TWO_64 * (q - 1)) + TWO_64;
    }
  }

  lemma ShiftSpelled(acc: nat, g: nat, s: nat, p: nat)
    ensures acc + (g + 128 * s) * p == (acc + g * p) + s * (128 * p)
  {
    Distributes(g, 128 * s, p);
    Regroups(s, p);
  }

  /** One round of the varint loop, its accumulator written without the cut. */
  lemma ReadsGroup(d: Bytes, i: nat, shift: nat, acc: nat)
    requires i < |d| && shift < 64
    ensures var next := (acc + (d[i] as nat % 128) * Pow2(shift)) % TWO_64;
            ReadVarint(d, i, shift, acc % TWO_64) ==
              if d[i] < 128 then Read(next, i + 1) else ReadVarint(d, i + 1, shift + 7, next)
  {
    hide Pow2;
    AddMod(acc, (d[i] as nat % 128) * Pow2(shift));
  }

  /** The varint loop reads the number that the groups spell, cut to 64 bits. */
  lemma {:induction false} ReadsAny(d: Bytes, i: nat, b: Bytes, shift: nat, acc: nat)
    requires 0 < |b| && b[|b| - 1] < 128 && (forall k :: 0 <= k < |b| - 1 ==> b[k] >= 128)
    requires At(d, i, b) && shift + 7 * (|b| - 1) < 64
    ensures ReadVarint(d, i, shift, acc % TWO_64) == Read((acc + Spelled(b) * Pow2(shift)) % TWO_64, i + |b|)
    decreases |b|
  {
    hide Pow2, ReadVarint;
    assert d[i] == d[i..i + |b|][0];
    var g, p := b[0] as nat % 128, Pow2(shift);
    ReadsGroup(d, i, shift, acc);
    if |b| == 1 {
      assert b[1..] == [];
      assert Spelled(b) == g;
    } else {
      var rest := b[1..];
      assert d[i + 1..i + 1 + |rest|] == d[i..i + |b|][1..];
      assert b[0] >= 128;
      Pow2Values();
      Pow2Adds(shift, 7);
      ReadsAny(d, i + 1, rest, shift + 7, acc + g * p);
      ShiftSpelled(acc, g, Spelled(rest), p);
    }
  }

  lemma ReadsAt(d: Bytes, i: nat, b: Bytes)
    requires IsVarint(b) && At(d, i, b)
    ensures ReadVarint(d, i, 0, 0) == Read(Value(b), i + |b|)
  {
    assert Pow2(0) == 1;
    ReadsAny(d, i, b, 0, 0);
  }

  /** What the loop accepts is a varint. */
  lemma {:induction false} ReadIsVarint(d: Bytes, i: nat, shift: nat, acc: nat)
    requires ReadVarint(d, i, shift, acc).Read?
    ensures var b := d[i..ReadVarint(d, i, shift, acc).next];
            0 < |b| && b[|b| - 1] < 128 && (forall k :: 0 <= k < |b| - 1 ==> b[k] >= 128) && shift + 7 * (|b| - 1) < 64
    decreases 70 - shift
  {
    hide Pow2;
    if d[i] >= 128 {
      var acc' := (acc + (d[i] as nat % 128) * Pow2(shift)) % TWO_64;
      ReadIsVarint(d, i + 1, shift + 7, acc');
      var n := ReadVarint(d, i, shift, acc).next;
      assert d[i..n] == [d[i]] + d[i + 1..n];
    }
  }

  lemma ReadAt(d: Bytes, i: nat)
    requires ReadVarint(d, i, 0, 0).Read?
    ensures var r := ReadVarint(d, i, 0, 0);
            IsVarint(d[i..r.next]) && At(d, i, d[i..r.next]) && Value(d[i..r.next]) == r.value
  {
    ReadIsVarint(d, i, 0, 0);
    ReadsAt(d, i, d[i..ReadVarint(d, i, 0, 0).next]);
  }

  // ---- skipping what is well formed -----------------------------------------------------------

  /** What the skipping loop does after the value of a field. */
  ghost function SkipOn(d: Bytes, step: Read): Read {
    if step.Unread? then step
    else if step.next >= TWO_63 then Unread(InvalidLength)
    else if step.value == 0 then Read(0, step.next)
    else SkipFrom(d, step.next, step.value)
  }

  lemma SkipUnfolds(d: Bytes, i: nat, depth: nat)
    requires i < |d| && ReadVarint(d, i, 0, 0).Read?
    ensures var wire := ReadVarint(d, i, 0, 0);
            SkipFrom(d, i, depth) == SkipOn(d, SkipValue(d, wire.next, wire.value % 8, depth))
  {
    hide ReadVarint, SkipValue;
  }

  /** One turn of the loop at a known tag. */
  lemma TagStep(d: Bytes, i: nat, depth: nat, tag: Bytes, wireType: nat)
    requires IsTag(tag, wireType) && At(d, i, tag)
    ensures SkipFrom(d, i, depth) == SkipOn(d, SkipValue(d, i + |tag|, wireType, depth))
  {
    hide ReadVarint, SkipValue, SkipFrom, SkipOn, Value, IsVarint, At;
    ReadsAt(d, i, tag);
    AtBound(d, i, tag);
    assert |tag| > 0 by { VarintNotEmpty(tag); }
    SkipUnfolds(d, i, depth);
  }

  lemma VarintNotEmpty(b: Bytes)
    requires IsVarint(b)
    ensures |b| > 0
  {
  }

  lemma GroupOpens(d: Bytes, i: nat, depth: nat, tag: Bytes)
    requires IsTag(tag, 3) && At(d, i, tag) && |d| < TWO_63
    ensures SkipFrom(d, i, depth) == SkipFrom(d, i + |tag|, depth + 1)
  {
    hide IsTag, At, SkipFrom;
    AtBound(d, i, tag);
    TagStep(d, i, depth, tag, 3);
  }

  lemma GroupCloses(d: Bytes, i: nat, depth: nat, tag: Bytes)
    requires IsTag(tag, 4) && At(d, i, tag) && |d| < TWO_63
    ensures SkipFrom(d, i, depth + 1) == SkipOn(d, Read(depth, i + |tag|))
  {
    hide IsTag, At, SkipFrom;
    TagStep(d, i, depth + 1, tag, 4);
  }

  /** The first field of a list. */
  ghost function Head(fs: Fields): Bytes
    requires !fs.NoFields?
  {
    match fs
    case Number(tag, value, rest) => tag + value
    case Fixed(tag, bytes, rest) => tag + bytes
    case Blob(tag, len, bytes, rest) => tag + (len + bytes)
    case Group(tag, inner, end, rest) => tag + (Wire(inner) + end)
  }

  lemma WireHead(fs: Fields)
    requires !fs.NoFields?
    ensures Wire(fs) == Head(fs) + Wire(fs.rest)
  {
  }

  lemma NothingToWrite(fs: Fields)
    requires fs.NoFields?
    ensures Wire(fs) == []
  {
  }

  lemma SimpleSkipped(d: Bytes, i: nat, fs: Fields, depth: nat)
    requires WellFormed(fs) && !fs.NoFields? && !fs.Group? && At(d, i, Head(fs)) && |d| < TWO_63
    ensures SkipFrom(d, i, depth) == SkipOn(d, Read(depth, i + |Head(fs)|))
  {
    hide SkipFrom, ReadVarint, IsVarint, Value, At;
    match fs
    case Number(tag, value, rest) =>
      AtSplit(d, i, tag, value);
      TagStep(d, i, depth, tag, 0);
      ReadsAt(d, i + |tag|, value);
    case Fixed(tag, bytes, rest) =>
      AtSplit(d, i, tag, bytes);
      TagStep(d, i, depth, tag, if |bytes| == 8 then 1 else 5);
    case Blob(tag, len, bytes, rest) =>
      AtSplit(d, i, tag, len + bytes);
      AtSplit(d, i + |tag|, len, bytes);
      TagStep(d, i, depth, tag, 2);
      ReadsAt(d, i + |tag|, len);
      AtBound(d, i + |tag| + |len|, bytes);
  }

  lemma AtBound(d: Bytes, i: nat, b: Bytes)
    requires At(d, i, b)
    ensures i + |b| <= |d|
  {
  }

  /** A well-formed field is passed over, at any depth. */
  lemma {:induction false} HeadSkipped(d: Bytes, i: nat, fs: Fields, depth: nat)
    requires WellFormed(fs) && !fs.NoFields? && At(d, i, Head(fs)) && |d| < TWO_63
    ensures SkipFrom(d, i, depth) == SkipOn(d, Read(depth, i + |Head(fs)|))
    decreases fs, 0
  {
    hide SkipFrom, SkipOn, IsTag, IsVarint, At, Wire;
    if fs.Group? {
      var inner := Wire(fs.inner);
      AtSplit(d, i, fs.tag, inner + fs.end);
      AtSplit(d, i + |fs.tag|, inner, fs.end);
      GroupOpens(d, i, depth, fs.tag);
      FieldsSkipped(d, i + |fs.tag|, fs.inner, depth + 1);
      GroupCloses(d, i + |fs.tag| + |inner|, depth, fs.end);
    } else {
      SimpleSkipped(d, i, fs, depth);
    }
  }

  lemma {:induction false} FieldsSkipped(d: Bytes, i: nat, fs: Fields, depth: nat)
    requires WellFormed(fs) && At(d, i, Wire(fs)) && |d| < TWO_63 && depth > 0
    ensures SkipFrom(d, i, depth) == SkipFrom(d, i + |Wire(fs)|, depth)
    decreases fs, 1
  {
    hide SkipFrom, IsTag, IsVarint, Head, At, Wire;
    if fs.NoFields? {
      NothingToWrite(fs);
    } else {
      WireHead(fs);
      AtSplit(d, i, Head(fs), Wire(fs.rest));
      AtBound(d, i, Head(fs));
      HeadSkipped(d, i, fs, depth);
      FieldsSkipped(d, i + |Head(fs)|, fs.rest, depth);
    }
  }

  // ---- what is skipped is well formed ---------------------------------------------------------

  /** One field that the loop passes over without changing the depth. */
  lemma SimpleFound(d: Bytes, i: nat, depth: nat, rest: Fields) returns (fs: Fields)
    requires WellFormed(rest)
    requires var wire := ReadVarint(d, i, 0, 0);
             && wire.Read? && wire.value % 8 in {0, 1, 2, 5}
             && var step := SkipValue(d, wire.next, wire.value % 8, depth);
             step.Read? && step.next <= |d|
    ensures var wire := ReadVarint(d, i, 0, 0);
            var next := SkipValue(d, wire.next, wire.value % 8, depth).next;
            && WellFormed(fs) && !fs.NoFields? && fs.rest == rest && Head(fs) == d[i..next]
  {
    hide ReadVarint, IsVarint, Value;
    var wire := ReadVarint(d, i, 0, 0);
    ReadAt(d, i);
    var tag, next := d[i..wire.next], SkipValue(d, wire.next, wire.value % 8, depth).next;
    if wire.value % 8 == 0 {
      ReadAt(d, wire.next);
      fs := Number(tag, d[wire.next..next], rest);
    } else if wire.value % 8 == 2 {
      var len := ReadVarint(d, wire.next, 0, 0);
      ReadAt(d, wire.next);
      fs := Blob(tag, d[wire.next..len.next], d[len.next..next], rest);
      assert d[wire.next..len.next] + d[len.next..next] == d[wire.next..next];
    } else {
      fs := Fixed(tag, d[wire.next..next], rest);
    }
    assert tag + d[wire.next..next] == d[i..next];
  }

  /** A group, found with what follows it. */
  lemma GroupBytes(d: Bytes, i: nat, next: nat, k: nat, j: nat, inner: Fields, stop: Bytes, more: Fields, end: Bytes)
    requires i <= next <= k <= j <= |d|
    requires IsTag(d[i..next], 3) && WellFormed(inner) && IsTag(stop, 4) && WellFormed(more)
    requires Wire(inner) + stop == d[next..k] && Wire(more) + end == d[k..j]
    ensures var fs := Group(d[i..next], inner, stop, more);
            WellFormed(fs) && Wire(fs) + end == d[i..j]
  {
    hide IsTag;
    var tag := d[i..next];
    assert d[i..j] == d[i..next] + d[next..k] + d[k..j];
    assert Wire(Group(tag, inner, stop, more)) + end == tag + (Wire(inner) + stop) + (Wire(more) + end);
  }

  lemma SimpleBytes(d: Bytes, i: nat, next: nat, j: nat, fs: Fields, end: Bytes)
    requires i <= next <= j <= |d| && !fs.NoFields? && Head(fs) == d[i..next] && Wire(fs.rest) + end == d[next..j]
    ensures Wire(fs) + end == d[i..j]
  {
    WireHead(fs);
    hide Wire, Head;
    assert d[i..j] == d[i..next] + d[next..j];
    assert Wire(fs) + end == Head(fs) + (Wire(fs.rest) + end);
  }

  lemma SkipReads(d: Bytes, i: nat, depth: nat)
    requires SkipFrom(d, i, depth).Read?
    ensures i < |d| && ReadVarint(d, i, 0, 0).Read?
    ensures var wire := ReadVarint(d, i, 0, 0);
            var step := SkipValue(d, wire.next, wire.value % 8, depth);
            && step.Read? && wire.value % 8 in {0, 1, 2, 3, 4, 5}
            && (wire.value % 8 in {0, 1, 2, 5} ==> step.value == depth)
  {
    hide ReadVarint;
  }

  /** The rest of a group that the loop leaves: some fields, an end tag, and then the loop goes on one level up. */
  lemma {:induction false} GroupFound(d: Bytes, i: nat, depth: nat) returns (fs: Fields, end: Bytes, j: nat)
    requires depth > 0 && SkipFrom(d, i, depth).Read? && SkipFrom(d, i, depth).next <= |d| < TWO_63
    ensures i < j <= SkipFrom(d, i, depth).next
    ensures WellFormed(fs) && IsTag(end, 4) && Wire(fs) + end == d[i..j]
    ensures SkipFrom(d, i, depth) == SkipOn(d, Read(depth - 1, j))
    decreases |d| - i
  {
    hide ReadVarint, IsVarint, Value, SkipFrom, Wire, Head, WellFormed;
    SkipReads(d, i, depth);
    SkipUnfolds(d, i, depth);
    var wire := ReadVarint(d, i, 0, 0);
    var kind := wire.value % 8;
    ReadAt(d, i);
    var tag := d[i..wire.next];
    if kind == 4 {
      fs, end, j := NoFields, tag, wire.next;
      EndFound(d, i, tag);
    } else if kind == 3 {
      var inner, stop, k := GroupFound(d, wire.next, depth + 1);
      var more;
      more, end, j := GroupFound(d, k, depth);
      fs := Group(tag, inner, stop, more);
      GroupBytes(d, i, wire.next, k, j, inner, stop, more, end);
    } else {
      var next := SkipValue(d, wire.next, kind, depth).next;
      var more;
      more, end, j := GroupFound(d, next, depth);
      fs := SimpleFound(d, i, depth, more);
      SimpleBytes(d, i, next, j, fs, end);
    }
  }

  lemma EndFound(d: Bytes, i: nat, tag: Bytes)
    requires At(d, i, tag)
    ensures WellFormed(NoFields) && Wire(NoFields) + tag == d[i..i + |tag|]
  {
  }

  /** `skipKeys` passes over exactly the well-formed fields: it accepts `n` bytes if and only if they are one. */
  lemma SkipsExactly(d: Bytes, n: nat)
    requires n <= |d| < TWO_63
    ensures SkipFrom(d, 0, 0) == Read(0, n) <==>
              exists fs: Fields {:trigger Single(fs)} :: WellFormed(fs) && Single(fs) && Wire(fs) == d[..n]
  {
    if SkipFrom(d, 0, 0) == Read(0, n) {
      var fs := FieldFound(d);
      assert Single(fs);
    }
    if fs: Fields :| WellFormed(fs) && Single(fs) && Wire(fs) == d[..n] {
      FieldSkipped(d, fs);
    }
  }

  lemma FieldSkipped(d: Bytes, fs: Fields)
    requires |d| < TWO_63 && WellFormed(fs) && Single(fs) && |Wire(fs)| <= |d| && Wire(fs) == d[..|Wire(fs)|]
    ensures SkipFrom(d, 0, 0) == Read(0, |Wire(fs)|)
  {
    WireHead(fs);
    assert Wire(fs.rest) == [];
    assert Head(fs) == Wire(fs);
    assert d[0..0 + |Wire(fs)|] == d[..|Wire(fs)|];
    hide Wire, Head, SkipFrom;
    HeadSkipped(d, 0, fs, 0);
  }

  lemma FieldFound(d: Bytes) returns (fs: Fields)
    requires SkipFrom(d, 0, 0).Read? && SkipFrom(d, 0, 0).next <= |d| < TWO_63
    ensures WellFormed(fs) && Single(fs) && Wire(fs) == d[..SkipFrom(d, 0, 0).next]
  {
    hide ReadVarint, IsVarint, Value;
    var wire := ReadVarint(d, 0, 0, 0);
    var n := SkipFrom(d, 0, 0).next;
    if wire.value % 8 == 3 {
      ReadAt(d, 0);
      var inner, end, j := GroupFound(d, wire.next, 1);
      fs := Group(d[0..wire.next], inner, end, NoFields);
      assert d[..n] == d[0..wire.next] + d[wire.next..j];
      assert Wire(fs) == d[0..wire.next] + (Wire(inner) + end);
    } else {
      fs := SimpleFound(d, 0, 0, NoFields);
      WireHead(fs);
      assert Head(fs) + [] == Head(fs);
      assert d[0..n] == d[..n];
    }
  }

  // ---- unknown fields do not matter -----------------------------------------------------------

  /** Reading depends only on what is read. */
  lemma {:induction false} VarintLocal(d: Bytes, i: nat, e: Bytes, j: nat, shift: nat, acc: nat)
    requires i <= |d| && j <= |e| && d[i..] <= e[j..] && ReadVarint(d, i, shift, acc).Read?
    ensures var r := ReadVarint(d, i, shift, acc);
            ReadVarint(e, j, shift, acc) == Read(r.value, j + (r.next - i))
    decreases 70 - shift
  {
    hide Pow2;
    assert d[i] == d[i..][0] == e[j..][0] == e[j];
    if d[i] >= 128 {
      assert d[i + 1..] == d[i..][1..] && e[j + 1..] == e[j..][1..];
      VarintLocal(d, i + 1, e, j + 1, shift + 7, (acc + (d[i] as nat % 128) * Pow2(shift)) % TWO_64);
    }
  }

  lemma SkipLocal(d: Bytes, e: Bytes)
    requires d <= e && |e| < TWO_63 && SkipFrom(d, 0, 0).Read? && SkipFrom(d, 0, 0).next <= |d|
    ensures SkipFrom(e, 0, 0) == SkipFrom(d, 0, 0)
  {
    var n := SkipFrom(d, 0, 0).next;
    SkipsZero(d, 0, 0);
    var fs := FieldFound(d);
    assert e[..n] == d[..n];
    FieldSkipped(e, fs);
  }

  lemma {:induction false} SkipsZero(d: Bytes, i: nat, depth: nat)
    requires SkipFrom(d, i, depth).Read?
    ensures SkipFrom(d, i, depth).value == 0
    decreases |d| - i
  {
    hide ReadVarint;
    var wire := ReadVarint(d, i, 0, 0);
    var step := SkipValue(d, wire.next, wire.value % 8, depth);
    if step.value > 0 {
      SkipsZero(d, step.next, step.value);
    }
  }

  lemma FieldLocal(d: Bytes, i: nat, e: Bytes, j: nat, m: PubKey)
    requires i <= |d| && j <= |e| < TWO_63 && d[i..] <= e[j..] && DecodeField(d, i, m).Step?
    ensures var s := DecodeField(d, i, m);
            DecodeField(e, j, m) == Step(s.key, j + (s.next - i))
  {
    hide ReadVarint, SkipFrom, FieldNumber, SetField;
    var wire := ReadVarint(d, i, 0, 0);
    VarintLocal(d, i, e, j, 0, 0);
    if FieldNumber(wire.value) <= 4 {
      var at, to := wire.next, j + (wire.next - i);
      assert d[at..] == d[i..][at - i..] && e[to..] == e[j..][at - i..];
      VarintLocal(d, at, e, to, 0, 0);
      var len := ReadVarint(d, at, 0, 0);
      var k, n := len.next - i, len.next + len.value - i;
      assert d[i + k..i + n] == d[i..][k..n] == e[j..][k..n] == e[j + k..j + n];
    } else {
      SkipLocal(d[i..], e[j..]);
    }
  }

  /** Whole fields decode to the same, whatever stands before and after them. */
  lemma {:induction false} DecodeLocal(d: Bytes, i: nat, e: Bytes, j: nat, m: PubKey)
    requires i <= |d| && j <= |e| < TWO_63 && d[i..] <= e[j..] && Decode(d, i, m).Parsed?
    ensures Decode(e, j, m) == Decode(e, j + (|d| - i), Decode(d, i, m).key)
    decreases |d| - i
  {
    hide DecodeField;
    if i < |d| {
      var s := DecodeField(d, i, m);
      FieldLocal(d, i, e, j, m);
      var to := j + (s.next - i);
      assert d[s.next..] == d[i..][s.next - i..] && e[to..] == e[j..][s.next - i..];
      DecodeLocal(d, s.next, e, to, s.key);
    }
  }

  /** An unknown field is one whose number is none of the four of the message. */
  ghost predicate Unknown(fs: Fields) { WellFormed(fs) && Single(fs) && FieldNumber(Value(fs.tag)) > 4 }

  lemma UnknownSkipped(d: Bytes, i: nat, fs: Fields, m: PubKey)
    requires Unknown(fs) && At(d, i, Wire(fs)) && |d| < TWO_63
    ensures DecodeField(d, i, m) == Step(m, i + |Wire(fs)|)
  {
    assert d[i..][..|Wire(fs)|] == d[i..i + |Wire(fs)|];
    FieldSkipped(d[i..], fs);
    WireTag(fs);
    AtSplit(d, i, fs.tag, Wire(fs)[|fs.tag|..]);
    ReadsAt(d, i, fs.tag);
    hide ReadVarint, SkipFrom, FieldNumber, Wire, Value;
  }

  lemma WireTag(fs: Fields)
    requires WellFormed(fs) && !fs.NoFields?
    ensures |fs.tag| <= |Wire(fs)| && fs.tag + Wire(fs)[|fs.tag|..] == Wire(fs)
    ensures IsVarint(fs.tag) && Value(fs.tag) % 8 != 4
  {
    hide Value, IsVarint;
    match fs
    case Number(tag, value, rest) => Begins(fs, value + Wire(rest));
    case Fixed(tag, bytes, rest) => Begins(fs, bytes + Wire(rest));
    case Blob(tag, len, bytes, rest) => Begins(fs, len + bytes + Wire(rest));
    case Group(tag, inner, end, rest) => Begins(fs, Wire(inner) + end + Wire(rest));
  }

  lemma Begins(fs: Fields, more: Bytes)
    requires !fs.NoFields? && Wire(fs) == fs.tag + more
    ensures |fs.tag| <= |Wire(fs)| && fs.tag + Wire(fs)[|fs.tag|..] == Wire(fs)
  {
    hide Wire;
  }

  /** Forward compatibility: a well-formed unknown field of any wire type, nested groups included, placed between whole
      fields, does not change whether or to what `Unmarshal` decodes. */
  lemma UnknownIsIgnored(a: Bytes, fs: Fields, b: Bytes, m: PubKey, k: PubKey)
    requires Unknown(fs) && Decode(a, 0, m).Parsed? && |a + Wire(fs) + b| < TWO_63
    ensures Decode(a + Wire(fs) + b, 0, m) == Parsed(k) <==> Decode(a + b, 0, m) == Parsed(k)
  {
    hide DecodeField, Wire, Unknown;
    var with, without := a + Wire(fs) + b, a + b;
    var mid := Decode(a, 0, m).key;
    var at := |a| + |Wire(fs)|;
    assert a[0..] == a && with[0..] == with && without[0..] == without;
    DecodeLocal(a, 0, with, 0, m);
    DecodeLocal(a, 0, without, 0, m);
    assert with[|a|..|a| + |Wire(fs)|] == Wire(fs);
    UnknownSkipped(with, |a|, fs, mid);
    WireNotEmpty(fs);
    assert Decode(with, 0, m) == Decode(with, at, mid);
    assert with[at..] == b == without[|a|..];
    if Decode(with, at, mid).Parsed? {
      DecodeLocal(with, at, without, |a|, mid);
    }
    if Decode(without, |a|, mid).Parsed? {
      DecodeLocal(without, |a|, with, at, mid);
    }
  }

  lemma WireNotEmpty(fs: Fields)
    requires Unknown(fs)
    ensures Wire(fs) != []
  {
    WireTag(fs);
  }
}
