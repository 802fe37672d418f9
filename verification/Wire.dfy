// Byte buffers and fixed-width fields: what every CMPP body is written to and read from.
module Wire {
  import opened Wrappers
  import opened Bytes

  // A field's text without the zero bytes that pad it.
  function Trim(b: Octets): (t: Octets) {
    if b != [] && b[|b| - 1] == 0 then Trim(b[..|b| - 1]) else b
  }

  function Pad(v: Octets, width: nat): (b: Octets)
    requires |v| <= width
    ensures |b| == width
  {
    v + Zeros(width - |v|)
  }

  predicate NoTrailingNul(v: Octets) {
    v == [] || v[|v| - 1] != 0
  }

  predicate Fits(v: Octets, width: nat) {
    |v| <= width && NoTrailingNul(v)
  }

  // What is read from a field fits it, and padding what was read gives the field back.
  lemma {:induction false} TrimFits(b: Octets)
    ensures Fits(Trim(b), |b|) && Pad(Trim(b), |b|) == b
  {
    if b != [] && b[|b| - 1] == 0 {
      var shorter := b[..|b| - 1];
      TrimFits(shorter);
      assert b == shorter + [0];
      assert Zeros(|b| - |Trim(b)|) == Zeros(|shorter| - |Trim(b)|) + [0];
    }
  }

  // A padded field reads back as its text exactly when the text does not end in a zero byte.
  lemma {:induction false} TrimPad(v: Octets, width: nat)
    requires |v| <= width
    ensures Trim(Pad(v, width)) == v <==> NoTrailingNul(v)
    decreases width
  {
    TrimFits(Pad(v, width));
    if NoTrailingNul(v) {
      if |v| == width {
        assert Pad(v, width) == v;
      } else {
        TrimPad(v, width - 1);
        assert Pad(v, width)[..width - 1] == Pad(v, width - 1);
      }
    }
  }

  // A stretch of a string that was put together piece by piece: e is what was there before x was
  // appended, and the whole string only goes on from there.
  lemma Piece(e: Octets, x: Octets, whole: Octets)
    requires e + x <= whole
    ensures e <= whole && |e| + |x| <= |whole| && whole[|e|..|e| + |x|] == x
  {
  }

  lemma PieceByte(e: Octets, x: u8, whole: Octets)
    requires e + [x] <= whole
    ensures e <= whole && |e| < |whole| && whole[|e|] == x
  {
  }

  // Texts of one width, one after the other.
  function PutTexts(base: Octets, vs: seq<Octets>, width: nat): (b: Octets)
    requires forall i :: 0 <= i < |vs| ==> |vs[i]| <= width
  {
    if vs == [] then base else PutTexts(base, vs[..|vs| - 1], width) + Pad(vs[|vs| - 1], width)
  }

  function TextAt(b: Octets, from: nat, width: nat): (t: Octets)
    requires from + width <= |b|
  {
    Trim(b[from..from + width])
  }

  // The n texts that start at from.
  function TextsAt(b: Octets, from: nat, width: nat, n: nat): (ts: seq<Octets>)
    requires from + n * width <= |b|
    ensures |ts| == n
  {
    if n == 0 then []
    else
      assert n * width == (n - 1) * width + width;
      TextsAt(b, from, width, n - 1) + [TextAt(b, from + (n - 1) * width, width)]
  }

  lemma Row(i: nat, n: nat, width: nat)
    requires i < n
    ensures (i + 1) * width == i * width + width <= n * width
  {
  }

  // A text printed at some place reads back exactly when it does not end in a zero byte.
  lemma PieceText(e: Octets, v: Octets, width: nat, whole: Octets)
    requires |v| <= width && e + Pad(v, width) <= whole
    ensures e <= whole && |e| + width <= |whole|
    ensures TextAt(whole, |e|, width) == v <==> NoTrailingNul(v)
  {
    Piece(e, Pad(v, width), whole);
    TrimPad(v, width);
  }

  // The same for a list of texts.
  lemma {:induction false} PieceTexts(base: Octets, vs: seq<Octets>, width: nat, whole: Octets)
    requires forall i :: 0 <= i < |vs| ==> |vs[i]| <= width
    requires PutTexts(base, vs, width) <= whole
    ensures |PutTexts(base, vs, width)| == |base| + |vs| * width <= |whole|
    ensures base <= whole
    ensures TextsAt(whole, |base|, width, |vs|) == vs <==> forall i :: 0 <= i < |vs| ==> NoTrailingNul(vs[i])
  {
    hide Pad, TextAt, NoTrailingNul;
    if vs != [] {
      var n := |vs| - 1;
      var v, before := vs[n], PutTexts(base, vs[..n], width);
      PieceText(before, v, width, whole);
      PieceTexts(base, vs[..n], width, whole);
      Row(n, |vs|, width);
      hide PutTexts;
      LastText(whole, |base|, width, |vs|);
      SnocEqual(TextsAt(whole, |base|, width, n), TextAt(whole, |before|, width), vs);
      SnocTexts(vs, vs[..n]);
    } else {
      assert |vs| * width == 0;
    }
  }

  lemma LastText(b: Octets, from: nat, width: nat, n: nat)
    requires n > 0 && from + n * width <= |b| && from + (n - 1) * width + width <= |b|
    ensures TextsAt(b, from, width, n) == TextsAt(b, from, width, n - 1) + [TextAt(b, from + (n - 1) * width, width)]
  {
  }

  lemma SnocEqual(ts: seq<Octets>, t: Octets, vs: seq<Octets>)
    requires |vs| == |ts| + 1
    ensures ts + [t] == vs <==> ts == vs[..|ts|] && t == vs[|ts|]
  {
    assert vs == vs[..|ts|] + [vs[|ts|]];
    assert (ts + [t])[..|ts|] == ts;
  }

  lemma SnocTexts(vs: seq<Octets>, before: seq<Octets>)
    requires vs != [] && before == vs[..|vs| - 1]
    ensures (forall i :: 0 <= i < |vs| ==> NoTrailingNul(vs[i])) <==>
            NoTrailingNul(vs[|vs| - 1]) && forall i :: 0 <= i < |before| ==> NoTrailingNul(before[i])
  {
    hide NoTrailingNul;
    forall i | 0 <= i < |before| ensures before[i] == vs[i] {
    }
  }

  // What is read from fixed-width fields fits them.
  lemma {:induction false} TextsFit(b: Octets, from: nat, width: nat, n: nat)
    requires from + n * width <= |b|
    ensures forall i :: 0 <= i < n ==> Fits(TextsAt(b, from, width, n)[i], width)
  {
    if n > 0 {
      assert n * width == (n - 1) * width + width;
      TextsFit(b, from, width, n - 1);
      TrimFits(b[from + (n - 1) * width..from + (n - 1) * width + width]);
    }
  }

  // BytesMut: a buffer that grows at the end; base is what was reserved in front of the body.
  class BytesMut {
    var data: Octets
    ghost var base: Octets
    ghost var body: Octets

    ghost predicate Valid()
      reads this
    {
      data == base + body
    }

    // BytesMut::new() followed by resize(reserved, 0)
    constructor (reserved: nat)
      ensures Valid() && base == Zeros(reserved) && body == []
    {
      data, base, body := Zeros(reserved), Zeros(reserved), [];
    }

    method PutSlice(b: Octets)
      requires Valid()
      modifies this
      ensures Valid() && base == old(base) && body == old(body) + b
    {
      data, body := data + b, body + b;
    }

    method PutU8(x: u8)
      requires Valid()
      modifies this
      ensures Valid() && base == old(base) && body == old(body) + [x]
    {
      PutSlice([x]);
    }

    method PutU32(n: u32)
      requires Valid()
      modifies this
      ensures Valid() && base == old(base) && body == old(body) + BigEndian32(n)
    {
      PutSlice(BigEndian32(n));
    }

    // pstring.rs: encode_pstring
    method EncodePstring(value: Octets, maxLen: nat) returns (fits: bool)
      requires Valid()
      modifies this
      ensures Valid() && base == old(base) && fits == (|value| <= maxLen)
      ensures body == if |value| <= maxLen then old(body) + Pad(value, maxLen) else old(body)
    {
      if |value| > maxLen {
        return false;
      }
      PutSlice(value);
      PutSlice(Zeros(maxLen - |value|));
      assert old(body) + value + Zeros(maxLen - |value|) == old(body) + Pad(value, maxLen);
      return true;
    }

    // buf[at..at + |b|].copy_from_slice(b), in front of the body
    method Patch(at: nat, b: Octets)
      requires Valid() && at + |b| <= |base|
      modifies this
      ensures Valid() && body == old(body) && base == old(base)[..at] + b + old(base)[at + |b|..]
    {
      data := data[..at] + b + data[at + |b|..];
      base := base[..at] + b + base[at + |b|..];
    }
  }

  // Cursor: a position moving over bytes that do not change.
  class Cursor {
    const data: Octets
    var pos: nat

    ghost predicate Valid()
      reads this
    {
      pos <= |data|
    }

    constructor (data: Octets)
      ensures Valid() && this.data == data && pos == 0
    {
      this.data, pos := data, 0;
    }

    method CopyToSlice(n: nat) returns (r: Option<Octets>)
      requires Valid()
      modifies this
      ensures Valid()
      ensures old(pos) + n <= |data| ==> r == Some(data[old(pos)..old(pos) + n]) && pos == old(pos) + n
      ensures old(pos) + n > |data| ==> r == None && pos == old(pos)
    {
      if |data| - pos < n {
        return None;
      }
      r := Some(data[pos..pos + n]);
      pos := pos + n;
    }

    method GetU8() returns (r: Option<u8>)
      requires Valid()
      modifies this
      ensures Valid()
      ensures old(pos) < |data| ==> r == Some(data[old(pos)]) && pos == old(pos) + 1
      ensures old(pos) >= |data| ==> r == None && pos == old(pos)
    {
      if pos == |data| {
        return None;
      }
      r := Some(data[pos]);
      pos := pos + 1;
    }

    method GetU32() returns (r: Option<u32>)
      requires Valid()
      modifies this
      ensures Valid()
      ensures old(pos) + 4 <= |data| ==> r == Some(ReadU32(data, old(pos))) && pos == old(pos) + 4
      ensures old(pos) + 4 > |data| ==> r == None && pos == old(pos)
    {
      if |data| - pos < 4 {
        return None;
      }
      r := Some(FromBigEndian32(data[pos], data[pos + 1], data[pos + 2], data[pos + 3]));
      pos := pos + 4;
    }

    // pstring.rs: decode_pstring
    method DecodePstring(maxLen: nat) returns (r: Option<Octets>)
      requires Valid()
      modifies this
      ensures Valid()
      ensures old(pos) + maxLen <= |data| ==> r == Some(TextAt(data, old(pos), maxLen)) && pos == old(pos) + maxLen
      ensures old(pos) + maxLen > |data| ==> r == None
    {
      var bytes :- CopyToSlice(maxLen);
      var keep := |bytes|;
      assert bytes[..keep] == bytes;
      while keep > 0 && bytes[keep - 1] == 0
        invariant 0 <= keep <= |bytes|
        invariant Trim(bytes) == Trim(bytes[..keep])
      {
        assert bytes[..keep][..keep - 1] == bytes[..keep - 1];
        keep := keep - 1;
      }
      assert Trim(bytes[..keep]) == bytes[..keep];
      r := Some(bytes[..keep]);
    }
  }

  lemma ReadU32Print(n: u32, b: Octets, at: nat)
    requires at + 4 <= |b| && b[at..at + 4] == BigEndian32(n)
    ensures ReadU32(b, at) == n
  {
    var s := b[at..at + 4];
    assert s[0] == b[at] && s[1] == b[at + 1] && s[2] == b[at + 2] && s[3] == b[at + 3];
    BigEndian32RoundTrip(n);
  }
}
