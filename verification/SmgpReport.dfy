// The textual delivery receipt of SMGP: a printer of 122 bytes and a parser that searches for keys.
module SmgpReport {
  import opened Wrappers
  import opened Bytes
  import opened Wire
  import opened Status

  type Array10 = b: Octets | |b| == 10 witness Zeros(10)

  datatype Receipt = Receipt(
    msgId: Array10,
    sub: Octets,
    dlvrd: Octets,
    submitTime: Octets,
    doneTime: Octets,
    stat: Octets,
    err: Octets,
    txt: Octets
  )

  const LENGTH := 122
  const SPACE: u8 := 32
  const COLON: u8 := 58

  // The keys, in ASCII: id: sub: dlvrd: submit date: done date: stat: err: text:
  const ID: Octets := [105, 100, 58]
  const SUB: Octets := [115, 117, 98, 58]
  const DLVRD: Octets := [100, 108, 118, 114, 100, 58]
  const SUBMIT_DATE: Octets := [115, 117, 98, 109, 105, 116, 32, 100, 97, 116, 101, 58]
  const DONE_DATE: Octets := [100, 111, 110, 101, 32, 100, 97, 116, 101, 58]
  const STAT: Octets := [115, 116, 97, 116, 58]
  const ERR: Octets := [101, 114, 114, 58]
  const TEXT: Octets := [116, 101, 120, 116, 58]

  // Where a key stands in a text: str::find.

  predicate Matches(s: Octets, key: Octets, at: nat) {
    at + |key| <= |s| && s[at..at + |key|] == key
  }

  function FindFrom(s: Octets, key: Octets, from: nat): (r: Option<nat>)
    requires from <= |s|
    ensures r.Some? ==> Matches(s, key, r.value) && from <= r.value && forall i :: from <= i < r.value ==> !Matches(s, key, i)
    ensures r.None? ==> forall i :: from <= i ==> !Matches(s, key, i)
    decreases |s| - from
  {
    if Matches(s, key, from) then Some(from)
    else if from == |s| then None
    else FindFrom(s, key, from + 1)
  }

  function Find(s: Octets, key: Octets): (r: Option<nat>) {
    FindFrom(s, key, 0)
  }

  // The bytes up to the first that satisfies the test.
  function Until(s: Octets, stop: u8 -> bool): (t: Octets)
    ensures |t| <= |s|
  {
    if s == [] || stop(s[0]) then [] else [s[0]] + Until(s[1..], stop)
  }

  // SmgpReport::extract_field
  function ExtractField(s: Octets, key: Octets): (r: Option<Octets>) {
    var start :- Find(s, key);
    Some(Until(s[start + |key|..], c => c == SPACE))
  }

  function TextField(s: Octets): (t: Octets) {
    match Find(s, TEXT)
    case None => []
    case Some(start) => TrimEnd(Trim(s[start + |TEXT|..]))
  }

  // SmgpReport::parse
  function Parse(data: Octets): (r: Option<Receipt>) {
    if |data| < LENGTH || data[..3] != ID then None
    else
      var rest := data[13..LENGTH];
      var sub :- ExtractField(rest, SUB);
      var dlvrd :- ExtractField(rest, DLVRD);
      var submitTime :- ExtractField(rest, SUBMIT_DATE);
      var doneTime :- ExtractField(rest, DONE_DATE);
      var stat :- ExtractField(rest, STAT);
      var err :- ExtractField(rest, ERR);
      Some(Receipt(data[3..13], sub, dlvrd, submitTime, doneTime, stat, err, TextField(rest)))
  }

  function Spaces(n: nat): (b: Octets)
    ensures |b| == n && forall i :: 0 <= i < n ==> b[i] == SPACE
  {
    seq(n, i => SPACE)
  }

  function Unpadded(r: Receipt): (b: Octets) {
    ID + r.msgId + [SPACE] + SUB + r.sub + [SPACE] + DLVRD + r.dlvrd + [SPACE] + SUBMIT_DATE + r.submitTime + [SPACE]
    + DONE_DATE + r.doneTime + [SPACE] + STAT + r.stat + [SPACE] + ERR + r.err + [SPACE] + TEXT + r.txt
  }

  // Vec::resize: longer texts are cut, shorter ones filled up.
  function Resized(b: Octets, n: nat): (r: Octets)
    ensures |r| == n
  {
    if |b| >= n then b[..n] else b + Spaces(n - |b|)
  }

  function Print(r: Receipt): (b: Octets)
    ensures |b| == LENGTH
  {
    Resized(Unpadded(r), LENGTH)
  }

  // SmgpReport::to_bytes
  method ToBytes(r: Receipt) returns (bytes: Octets)
    ensures bytes == Print(r)
  {
    bytes := ID;
    bytes := bytes + r.msgId;
    bytes := bytes + [SPACE];
    bytes := bytes + SUB;
    bytes := bytes + r.sub;
    bytes := bytes + [SPACE];
    bytes := bytes + DLVRD;
    bytes := bytes + r.dlvrd;
    bytes := bytes + [SPACE];
    bytes := bytes + SUBMIT_DATE;
    bytes := bytes + r.submitTime;
    bytes := bytes + [SPACE];
    bytes := bytes + DONE_DATE;
    bytes := bytes + r.doneTime;
    bytes := bytes + [SPACE];
    bytes := bytes + STAT;
    bytes := bytes + r.stat;
    bytes := bytes + [SPACE];
    bytes := bytes + ERR;
    bytes := bytes + r.err;
    bytes := bytes + [SPACE];
    bytes := bytes + TEXT;
    bytes := bytes + r.txt;
    bytes := Resized(bytes, LENGTH);
  }

  // The widths the format states, in fields free of spaces and colons.

  predicate Clean(v: Octets) {
    forall i :: 0 <= i < |v| ==> v[i] != SPACE && v[i] != COLON
  }

  predicate Standard(r: Receipt) {
    && |r.sub| == 3 && |r.dlvrd| == 3 && |r.submitTime| == 10 && |r.doneTime| == 10 && |r.stat| == 7 && |r.err| == 3
    && |r.txt| <= 20
    && Clean(r.sub) && Clean(r.dlvrd) && Clean(r.submitTime) && Clean(r.doneTime) && Clean(r.stat) && Clean(r.err)
  }

  // Where everything stands in a standard receipt.
  ghost predicate Laid(r: Receipt, b: Octets) {
    && |b| == LENGTH
    && b[..3] == ID && b[3..13] == r.msgId && b[13] == SPACE
    && b[14..18] == SUB && b[18..21] == r.sub && b[21] == SPACE
    && b[22..28] == DLVRD && b[28..31] == r.dlvrd && b[31] == SPACE
    && b[32..44] == SUBMIT_DATE && b[44..54] == r.submitTime && b[54] == SPACE
    && b[55..65] == DONE_DATE && b[65..75] == r.doneTime && b[75] == SPACE
    && b[76..81] == STAT && b[81..88] == r.stat && b[88] == SPACE
    && b[89..93] == ERR && b[93..96] == r.err && b[96] == SPACE
    && b[97..102] == TEXT && |r.txt| <= 20 && b[102..] == r.txt + Spaces(20 - |r.txt|)
  }

  // The first half of a standard receipt, up to the dates.
  function Half(r: Receipt): (b: Octets) {
    ID + r.msgId + [SPACE] + SUB + r.sub + [SPACE] + DLVRD + r.dlvrd + [SPACE] + SUBMIT_DATE + r.submitTime + [SPACE]
  }

  lemma HalfLaid(r: Receipt, whole: Octets)
    requires Standard(r) && Half(r) <= whole
    ensures |Half(r)| == 55 <= |whole|
    ensures whole[..3] == ID && whole[3..13] == r.msgId && whole[13] == SPACE
    ensures whole[14..18] == SUB && whole[18..21] == r.sub && whole[21] == SPACE
    ensures whole[22..28] == DLVRD && whole[28..31] == r.dlvrd && whole[31] == SPACE
    ensures whole[32..44] == SUBMIT_DATE && whole[44..54] == r.submitTime && whole[54] == SPACE
  {
    hide Clean;
    var e1 := ID + r.msgId;
    var e2 := e1 + [SPACE];
    var e3 := e2 + SUB;
    var e4 := e3 + r.sub;
    var e5 := e4 + [SPACE];
    var e6 := e5 + DLVRD;
    var e7 := e6 + r.dlvrd;
    var e8 := e7 + [SPACE];
    var e9 := e8 + SUBMIT_DATE;
    var e10 := e9 + r.submitTime;
    assert Half(r) == e10 + [SPACE];
    hide Half;
    PieceByte(e10, SPACE, whole);
    Piece(e9, r.submitTime, whole);
    Piece(e8, SUBMIT_DATE, whole);
    PieceByte(e7, SPACE, whole);
    Piece(e6, r.dlvrd, whole);
    Piece(e5, DLVRD, whole);
    PieceByte(e4, SPACE, whole);
    Piece(e3, r.sub, whole);
    Piece(e2, SUB, whole);
    PieceByte(e1, SPACE, whole);
    Piece(ID, r.msgId, whole);
  }

  lemma PrintLaid(r: Receipt)
    requires Standard(r)
    ensures Laid(r, Print(r))
  {
    hide Clean;
    var unpadded, half := Unpadded(r), Half(r);
    var whole := Print(r);
    assert |half| == 55 && |unpadded| == 102 + |r.txt|;
    assert whole == unpadded + Spaces(LENGTH - |unpadded|);
    assert unpadded <= whole;
    HalfLength(r);
    RestLaid(r, whole);
    HalfLaid(r, whole);
    assert whole[102..] == r.txt + Spaces(20 - |r.txt|);
  }

  lemma HalfLength(r: Receipt)
    requires Standard(r)
    ensures |Half(r)| == 55
  {
  }

  lemma RestLaid(r: Receipt, whole: Octets)
    requires Standard(r) && Unpadded(r) <= whole && |whole| == LENGTH
    ensures Half(r) <= whole
    ensures whole[55..65] == DONE_DATE && whole[65..75] == r.doneTime && whole[75] == SPACE
    ensures whole[76..81] == STAT && whole[81..88] == r.stat && whole[88] == SPACE
    ensures whole[89..93] == ERR && whole[93..96] == r.err && whole[96] == SPACE
    ensures whole[97..102] == TEXT && whole[102..102 + |r.txt|] == r.txt
  {
    hide Clean;
    HalfLength(r);
    var e1 := Half(r) + DONE_DATE;
    var e2 := e1 + r.doneTime;
    var e3 := e2 + [SPACE];
    var e4 := e3 + STAT;
    var e5 := e4 + r.stat;
    var e6 := e5 + [SPACE];
    var e7 := e6 + ERR;
    var e8 := e7 + r.err;
    var e9 := e8 + [SPACE];
    var e10 := e9 + TEXT;
    assert Unpadded(r) == e10 + r.txt;
    hide Half, Unpadded;
    Piece(e10, r.txt, whole);
    Piece(e9, TEXT, whole);
    PieceByte(e8, SPACE, whole);
    Piece(e7, r.err, whole);
    Piece(e6, ERR, whole);
    PieceByte(e5, SPACE, whole);
    Piece(e4, r.stat, whole);
    Piece(e3, STAT, whole);
    PieceByte(e2, SPACE, whole);
    Piece(e1, r.doneTime, whole);
    Piece(Half(r), DONE_DATE, whole);
  }

  // After the message id the only colons are those that end the keys, up to the text.
  lemma Colons(r: Receipt, b: Octets, i: nat)
    requires Standard(r) && Laid(r, b) && 13 <= i < 102
    ensures b[i] == COLON ==> i in {17, 27, 43, 64, 80, 92, 101}
  {
  }

  lemma FindIs(s: Octets, key: Octets, at: nat)
    requires Matches(s, key, at) && forall i :: 0 <= i < at ==> !Matches(s, key, i)
    ensures Find(s, key) == Some(at)
  {
  }

  // A key that ends in a colon is found where it stands, if in front of each earlier colon some byte
  // differs: wrong[c] says how far in front of the colon at c.
  lemma KeyFound(r: Receipt, b: Octets, key: Octets, at: nat, wrong: map<nat, nat>)
    requires Standard(r) && Laid(r, b) && key != [] && key[|key| - 1] == COLON
    requires 13 <= at && at + |key| <= 102 && b[at..at + |key|] == key
    requires forall c :: c in {17, 27, 43, 64, 80, 92, 101} && 12 + |key| <= c < at + |key| - 1 ==>
               c in wrong && 0 < wrong[c] < |key| && b[c - wrong[c]] != key[|key| - 1 - wrong[c]]
    ensures Find(b[13..LENGTH], key) == Some(at - 13)
  {
    var rest := b[13..LENGTH];
    assert rest[at - 13..at - 13 + |key|] == key;
    forall i | 0 <= i < at - 13 ensures !Matches(rest, key, i) {
      var c := 12 + i + |key|;
      MatchByte(rest, key, i, |key| - 1);
      Colons(r, b, c);
      if b[c] == COLON {
        MatchByte(rest, key, i, |key| - 1 - wrong[c]);
      }
    }
    FindIs(rest, key, at - 13);
  }

  lemma MatchByte(s: Octets, key: Octets, at: nat, k: nat)
    requires at + |key| <= |s| && k < |key|
    ensures Matches(s, key, at) ==> s[at + k] == key[k]
  {
  }

  lemma MatchInside(s: Octets, from: nat, to: nat, key: Octets, at: nat)
    requires from <= to <= |s| && at + |key| <= to - from
    ensures Matches(s[from..to], key, at) <==> Matches(s, key, from + at)
  {
    var left, right := s[from..to][at..at + |key|], s[from + at..from + at + |key|];
    assert forall k :: 0 <= k < |key| ==> left[k] == right[k];
    assert left == right;
  }

  lemma SubFound(r: Receipt, b: Octets)
    requires Standard(r) && Laid(r, b)
    ensures Find(b[13..LENGTH], SUB) == Some(1)
  {
    hide Find, Clean;
    KeyFound(r, b, SUB, 14, map[]);
  }

  lemma DlvrdFound(r: Receipt, b: Octets)
    requires Standard(r) && Laid(r, b)
    ensures Find(b[13..LENGTH], DLVRD) == Some(9)
  {
    hide Find, Clean;
    KeyFound(r, b, DLVRD, 22, map[]);
  }

  lemma SubmitDateFound(r: Receipt, b: Octets)
    requires Standard(r) && Laid(r, b)
    ensures Find(b[13..LENGTH], SUBMIT_DATE) == Some(19)
  {
    hide Find, Clean;
    assert b[26] == b[22..28][4] == 100;
    KeyFound(r, b, SUBMIT_DATE, 32, map[27 := 1]);
  }

  lemma DoneDateFound(r: Receipt, b: Octets)
    requires Standard(r) && Laid(r, b)
    ensures Find(b[13..LENGTH], DONE_DATE) == Some(42)
  {
    hide Find, Clean;
    assert b[26] == b[22..28][4] == 100;
    assert b[37] == b[32..44][5] == 116;
    KeyFound(r, b, DONE_DATE, 55, map[27 := 1, 43 := 6]);
  }

  lemma StatFound(r: Receipt, b: Octets)
    requires Standard(r) && Laid(r, b)
    ensures Find(b[13..LENGTH], STAT) == Some(63)
  {
    hide Find, Clean;
    assert b[16] == b[14..18][2] == 98;
    assert b[26] == b[22..28][4] == 100;
    assert b[42] == b[32..44][10] == 101;
    assert b[63] == b[55..65][8] == 101;
    KeyFound(r, b, STAT, 76, map[17 := 1, 27 := 1, 43 := 1, 64 := 1]);
  }

  lemma ErrFound(r: Receipt, b: Octets)
    requires Standard(r) && Laid(r, b)
    ensures Find(b[13..LENGTH], ERR) == Some(76)
  {
    hide Find, Clean;
    assert b[16] == b[14..18][2] == 98;
    assert b[26] == b[22..28][4] == 100;
    assert b[42] == b[32..44][10] == 101;
    assert b[63] == b[55..65][8] == 101;
    assert b[79] == b[76..81][3] == 116;
    KeyFound(r, b, ERR, 89, map[17 := 1, 27 := 1, 43 := 1, 64 := 1, 80 := 1]);
  }

  lemma TextFound(r: Receipt, b: Octets)
    requires Standard(r) && Laid(r, b)
    ensures Find(b[13..LENGTH], TEXT) == Some(84)
  {
    hide Find, Clean;
    assert b[16] == b[14..18][2] == 98;
    assert b[26] == b[22..28][4] == 100;
    assert b[42] == b[32..44][10] == 101;
    assert b[63] == b[55..65][8] == 101;
    assert b[78] == b[76..81][2] == 97;
    assert b[91] == b[89..93][2] == 114;
    KeyFound(r, b, TEXT, 97, map[17 := 1, 27 := 1, 43 := 1, 64 := 1, 80 := 2, 92 := 1]);
  }

  // The value behind a key ends at the space the printer put there.
  lemma {:induction false} UntilSpace(v: Octets, more: Octets)
    requires forall i :: 0 <= i < |v| ==> v[i] != SPACE
    requires more != [] && more[0] == SPACE
    ensures Until(v + more, c => c == SPACE) == v
  {
    if v == [] {
      assert v + more == more;
    } else {
      assert (v + more)[1..] == v[1..] + more;
      UntilSpace(v[1..], more);
    }
  }

  lemma FieldReads(rest: Octets, key: Octets, v: Octets, at: nat)
    requires Find(rest, key) == Some(at)
    requires at + |key| + |v| < |rest| && rest[at + |key|..at + |key| + |v|] == v
    requires rest[at + |key| + |v|] == SPACE && Clean(v)
    ensures ExtractField(rest, key) == Some(v)
  {
    var from := at + |key|;
    assert rest[from..] == v + rest[from + |v|..];
    UntilSpace(v, rest[from + |v|..]);
  }

  // Texts the parser's two trims leave alone: a full-width text may not end in a zero byte or white
  // space, a shorter one, filled up with spaces, may not end in white space.
  predicate TextStable(txt: Octets) {
    txt != [] ==> !IsSpace(txt[|txt| - 1]) && (|txt| == 20 ==> txt[|txt| - 1] != 0)
  }

  lemma {:induction false} TrimEndSpaces(v: Octets, n: nat)
    ensures TrimEnd(v + Spaces(n)) == TrimEnd(v)
  {
    if n == 0 {
      assert v + Spaces(0) == v;
    } else {
      var b := v + Spaces(n);
      assert b[..|b| - 1] == v + Spaces(n - 1);
      TrimEndSpaces(v, n - 1);
    }
  }

  lemma TextReads(txt: Octets)
    requires |txt| <= 20
    ensures TrimEnd(Trim(txt + Spaces(20 - |txt|))) == txt <==> TextStable(txt)
  {
    hide Trim, TrimEnd, IsSpace, Spaces;
    var n := 20 - |txt|;
    if n > 0 {
      ShortText(txt, n);
    } else {
      assert txt + Spaces(n) == txt;
      FullText(txt);
    }
  }

  lemma ShortText(txt: Octets, n: nat)
    requires n > 0
    ensures TrimEnd(Trim(txt + Spaces(n))) == txt <==> (txt != [] ==> !IsSpace(txt[|txt| - 1]))
  {
    assert Trim(txt + Spaces(n)) == txt + Spaces(n);
    hide Trim, Spaces, IsSpace;
    TrimEndSpaces(txt, n);
    TrimEndKeeps(txt);
  }

  lemma TrimEndKeeps(v: Octets)
    ensures TrimEnd(v) == v <==> (v != [] ==> !IsSpace(v[|v| - 1]))
  {
    TrimEndIs(v);
  }

  lemma FullText(txt: Octets)
    ensures TrimEnd(Trim(txt)) == txt <==> (txt != [] ==> !IsSpace(txt[|txt| - 1]) && txt[|txt| - 1] != 0)
  {
    TrimFits(txt);
    TrimEndIs(Trim(txt));
    TrimEndKeeps(txt);
    hide TrimEnd, Spaces, IsSpace;
    if |Trim(txt)| == |txt| {
      assert Pad(Trim(txt), |txt|) == Trim(txt);
    }
  }

  // For fields of the stated widths, free of spaces and colons, and any ten bytes of message id,
  // parsing what was printed gives the receipt back exactly when its text is stable.
  lemma ReceiptRoundTrip(r: Receipt)
    requires Standard(r)
    ensures Parse(Print(r)) == Some(r) <==> TextStable(r.txt)
  {
    PrintLaid(r);
    FieldsRead(r, Print(r));
    TextFieldReads(r, Print(r));
    hide Print, ExtractField, TextField, TextStable, Standard;
  }

  lemma TextFieldReads(r: Receipt, b: Octets)
    requires Standard(r) && Laid(r, b)
    ensures TextField(b[13..LENGTH]) == r.txt <==> TextStable(r.txt)
  {
    hide Find, TextStable, Trim, TrimEnd, Clean;
    TextFound(r, b);
    assert b[13..LENGTH][84 + |TEXT|..] == b[102..];
    TextReads(r.txt);
  }

  lemma FieldsRead(r: Receipt, b: Octets)
    requires Standard(r) && Laid(r, b)
    ensures var rest := b[13..LENGTH];
            && ExtractField(rest, SUB) == Some(r.sub) && ExtractField(rest, DLVRD) == Some(r.dlvrd)
            && ExtractField(rest, SUBMIT_DATE) == Some(r.submitTime) && ExtractField(rest, DONE_DATE) == Some(r.doneTime)
            && ExtractField(rest, STAT) == Some(r.stat) && ExtractField(rest, ERR) == Some(r.err)
  {
    hide Find, ExtractField, Clean;
    var rest := b[13..LENGTH];
    SubFound(r, b);
    FieldReads(rest, SUB, r.sub, 1);
    DlvrdFound(r, b);
    FieldReads(rest, DLVRD, r.dlvrd, 9);
    SubmitDateFound(r, b);
    FieldReads(rest, SUBMIT_DATE, r.submitTime, 19);
    DoneDateFound(r, b);
    FieldReads(rest, DONE_DATE, r.doneTime, 42);
    StatFound(r, b);
    FieldReads(rest, STAT, r.stat, 63);
    ErrFound(r, b);
    FieldReads(rest, ERR, r.err, 76);
  }

  // DeliveryStatus::from_receipt_text searches the whole receipt, the binary message id included.
  function FromReceiptText(text: Octets): (s: DeliveryStatus) {
    match Find(text, STAT)
    case None => Unknown
    case Some(pos) => FromStatCode(Until(text[pos + |STAT|..], IsSpace))
  }

  predicate NoWhiteSpace(v: Octets) {
    forall i :: 0 <= i < |v| ==> !IsSpace(v[i])
  }

  // A text in which the key does not occur says nothing; otherwise the code starts behind its first
  // occurrence.
  lemma ReceiptTextIs(text: Octets, at: nat)
    ensures (forall i: nat :: !Matches(text, STAT, i)) ==> FromReceiptText(text) == Unknown
    ensures Matches(text, STAT, at) && (forall i :: 0 <= i < at ==> !Matches(text, STAT, i)) ==>
              FromReceiptText(text) == FromStatCode(Until(text[at + 5..], IsSpace))
  {
    if Matches(text, STAT, at) && (forall i :: 0 <= i < at ==> !Matches(text, STAT, i)) {
      FindIs(text, STAT, at);
    }
    hide FromStatCode, Until, Matches;
  }

  // White space, wherever it comes from, ends the code.
  lemma {:induction false} UntilWhiteSpace(v: Octets, more: Octets)
    requires more != [] && IsSpace(more[0])
    ensures Until(v + more, IsSpace) == Until(v, IsSpace)
    ensures NoWhiteSpace(v) ==> Until(v, IsSpace) == v
    ensures NoWhiteSpace(Until(v, IsSpace))
    ensures Until(v, IsSpace) == [] <==> v == [] || IsSpace(v[0])
  {
    if v == [] {
      assert v + more == more;
    } else {
      assert (v + more)[1..] == v[1..] + more;
      UntilWhiteSpace(v[1..], more);
    }
  }

  // A message id that spells out the key, and what follows the key in it.
  predicate SpellsKey(id: Array10) {
    Find(id, STAT).Some?
  }

  function AfterKey(id: Array10): (rest: Octets)
    requires SpellsKey(id)
    ensures |rest| <= 5
  {
    id[Find(id, STAT).value + |STAT|..]
  }

  // The two readers of a receipt agree on the state exactly unless the message id contains the bytes
  // of the key; and even then, if the key ends the id or white space follows it, and the state is that
  // of an empty code.
  lemma ReceiptTextAgrees(r: Receipt)
    requires Standard(r) && NoWhiteSpace(r.stat)
    ensures FromReceiptText(Print(r)) == FromStatCode(r.stat) <==>
            SpellsKey(r.msgId) ==>
              (AfterKey(r.msgId) == [] || IsSpace(AfterKey(r.msgId)[0])) && Upper(r.stat) == UNKNOWN
  {
    hide Print, Clean, FromReceiptText, FromStatCode, SpellsKey, AfterKey, NoWhiteSpace, Upper, IsSpace;
    PrintLaid(r);
    FullCode(r.stat);
    if SpellsKey(r.msgId) {
      ReadFromId(r, Print(r));
    } else {
      ReadFromStat(r, Print(r));
    }
  }

  lemma ReadFromStat(r: Receipt, b: Octets)
    requires Standard(r) && NoWhiteSpace(r.stat) && Laid(r, b) && !SpellsKey(r.msgId)
    ensures FromReceiptText(b) == FromStatCode(r.stat)
  {
    WholeSearch(r, b);
    hide Find, Clean, FromStatCode;
    assert b[81..] == r.stat + b[88..];
    UntilWhiteSpace(r.stat, b[88..]);
  }

  lemma ReadFromId(r: Receipt, b: Octets)
    requires Standard(r) && Laid(r, b) && SpellsKey(r.msgId)
    ensures var rest := AfterKey(r.msgId);
            if rest == [] || IsSpace(rest[0]) then FromReceiptText(b) == Unknown
            else FromReceiptText(b).Other? && |FromReceiptText(b).code| <= 5
  {
    IdSearch(r, b);
    hide Find, AfterKey, SpellsKey, Clean, Laid, FromStatCode;
    var rest := AfterKey(r.msgId);
    UntilWhiteSpace(rest, b[13..]);
    ShortCode(Until(rest, IsSpace));
  }

  // The search stops in the id.
  lemma IdSearch(r: Receipt, b: Octets)
    requires Standard(r) && Laid(r, b) && SpellsKey(r.msgId)
    ensures Find(b, STAT).Some? && b[Find(b, STAT).value + |STAT|..] == AfterKey(r.msgId) + b[13..] && b[13] == SPACE
  {
    var at := Find(r.msgId, STAT).value;
    forall i | 0 <= i < 3 + at ensures !Matches(b, STAT, i) {
      if i < 3 {
        MatchByte(b, STAT, i, 0);
        assert b[i] == b[..3][i];
      } else {
        MatchInside(b, 3, 13, STAT, i - 3);
      }
    }
    MatchInside(b, 3, 13, STAT, at);
    FindIs(b, STAT, 3 + at);
    RestOfId(b, at + 5);
  }

  lemma RestOfId(b: Octets, from: nat)
    requires |b| == LENGTH && from <= 10
    ensures b[3 + from..] == b[3..13][from..] + b[13..]
  {
    var left, right := b[3 + from..], b[3..13][from..] + b[13..];
    assert |left| == |right| && forall i :: 0 <= i < |left| ==> left[i] == right[i];
  }

  // A code without white space of other than seven bytes stands for itself, or for nothing.
  lemma ShortCode(code: Octets)
    requires |code| <= 5 && NoWhiteSpace(code)
    ensures FromStatCode(code) == if code == [] then Unknown else Other(Upper(code))
  {
    TrimSpaceIs(code);
  }

  lemma FullCode(code: Octets)
    requires |code| == 7 && NoWhiteSpace(code)
    ensures FromStatCode(code).Other? ==> |FromStatCode(code).code| == 7
    ensures FromStatCode(code) == Unknown <==> Upper(code) == UNKNOWN
  {
    TrimSpaceIs(code);
  }

  lemma WholeSearch(r: Receipt, b: Octets)
    requires Standard(r) && Laid(r, b) && Find(r.msgId, STAT).None?
    ensures Find(b, STAT) == Some(76)
  {
    StatFound(r, b);
    forall i | 0 <= i < 76 ensures !Matches(b, STAT, i) {
      if i >= 13 {
        MatchInside(b, 13, LENGTH, STAT, i - 13);
      } else if i >= 9 {
        MatchByte(b, STAT, i, 13 - i);
      } else if i >= 3 {
        MatchInside(b, 3, 13, STAT, i - 3);
      } else {
        MatchByte(b, STAT, i, 0);
        assert b[i] == b[..3][i];
      }
    }
    FindIs(b, STAT, 76);
  }

  // The id is stat:EXPIR, the state DELIVRD.
  function Misleading(): (r: Receipt) {
    var zeros: Octets := [48, 48, 48];
    var time: Octets := [50, 54, 48, 49, 48, 49, 48, 48, 48, 48];
    Receipt([115, 116, 97, 116, 58, 69, 88, 80, 73, 82], zeros, zeros, time, time, DELIVRD, zeros, [])
  }

  lemma MisleadingIsStandard()
    ensures Standard(Misleading()) && TextStable(Misleading().txt) && NoWhiteSpace(Misleading().stat)
  {
  }

  lemma MisleadingSpells()
    ensures var id := Misleading().msgId; SpellsKey(id) && AfterKey(id) != [] && !IsSpace(AfterKey(id)[0])
  {
    var id := Misleading().msgId;
    assert Matches(id, STAT, 0);
    FindIs(id, STAT, 0);
    hide Find, Matches;
    assert AfterKey(id)[0] == 69;
  }

  // A message id that spells the key out misleads the second reader but not the first.
  lemma MisleadingMessageId()
    ensures exists r: Receipt ::
              && Standard(r) && TextStable(r.txt) && Parse(Print(r)) == Some(r)
              && FromStatCode(r.stat) == Delivered && FromReceiptText(Print(r)) != Delivered
  {
    var r := Misleading();
    MisleadingIsStandard();
    MisleadingSpells();
    SixCodes(DELIVRD);
    hide Print, Parse, FromReceiptText, Standard, TextStable, NoWhiteSpace, SpellsKey, AfterKey, IsSpace;
    ReceiptRoundTrip(r);
    ReceiptTextAgrees(r);
    assert FromStatCode(r.stat) == Delivered;
  }
}
