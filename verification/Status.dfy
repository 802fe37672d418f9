// Delivery states and the seven-letter codes that stand for them in receipts.
module Status {
  import opened Bytes

  datatype DeliveryStatus = Delivered | Expired | Undeliverable | Accepted | Rejected | Unknown | Other(code: Octets)

  // The codes, in ASCII.
  const DELIVRD: Octets := [68, 69, 76, 73, 86, 82, 68]
  const EXPIRED: Octets := [69, 88, 80, 73, 82, 69, 68]
  const UNDELIV: Octets := [85, 78, 68, 69, 76, 73, 86]
  const ACCEPTD: Octets := [65, 67, 67, 69, 80, 84, 68]
  const REJECTD: Octets := [82, 69, 74, 69, 67, 84, 68]
  const UNKNOWN: Octets := [85, 78, 75, 78, 79, 87, 78]

  // char::is_whitespace on ASCII
  predicate IsSpace(c: u8) {
    9 <= c <= 13 || c == 32
  }

  function TrimStart(b: Octets): (t: Octets) {
    if b != [] && IsSpace(b[0]) then TrimStart(b[1..]) else b
  }

  function TrimEnd(b: Octets): (t: Octets) {
    if b != [] && IsSpace(b[|b| - 1]) then TrimEnd(b[..|b| - 1]) else b
  }

  // str::trim
  function TrimSpace(b: Octets): (t: Octets) {
    TrimEnd(TrimStart(b))
  }

  function Upper(b: Octets): (u: Octets)
    ensures |u| == |b|
    ensures forall i :: 0 <= i < |b| ==> u[i] == if 97 <= b[i] <= 122 then b[i] - 32 else b[i]
  {
    seq(|b|, i requires 0 <= i < |b| => if 97 <= b[i] <= 122 then b[i] - 32 else b[i])
  }

  predicate NoOuterSpace(b: Octets) {
    b != [] ==> !IsSpace(b[0]) && !IsSpace(b[|b| - 1])
  }

  lemma {:induction false} TrimStartIs(b: Octets)
    ensures TrimStart(b) != [] ==> !IsSpace(TrimStart(b)[0]) && TrimStart(b)[|TrimStart(b)| - 1] == b[|b| - 1]
    ensures |TrimStart(b)| <= |b|
    ensures b != [] && IsSpace(b[0]) ==> |TrimStart(b)| < |b|
  {
    if b != [] && IsSpace(b[0]) {
      TrimStartIs(b[1..]);
    }
  }

  lemma {:induction false} TrimEndIs(b: Octets)
    ensures TrimEnd(b) != [] ==> !IsSpace(TrimEnd(b)[|TrimEnd(b)| - 1]) && TrimEnd(b)[0] == b[0]
    ensures |TrimEnd(b)| <= |b|
    ensures b != [] && IsSpace(b[|b| - 1]) ==> |TrimEnd(b)| < |b|
  {
    if b != [] && IsSpace(b[|b| - 1]) {
      TrimEndIs(b[..|b| - 1]);
    }
  }

  // Trimming leaves no outer space, never makes longer, and leaves alone exactly what has none.
  lemma TrimSpaceIs(b: Octets)
    ensures NoOuterSpace(TrimSpace(b)) && |TrimSpace(b)| <= |b|
    ensures TrimSpace(b) == b <==> NoOuterSpace(b)
  {
    TrimStartIs(b);
    TrimEndIs(TrimStart(b));
    if NoOuterSpace(b) {
      assert TrimStart(b) == b;
    }
  }

  // DeliveryStatus::from_stat_code
  function FromStatCode(code: Octets): (s: DeliveryStatus) {
    var c := Upper(TrimSpace(code));
    if c == DELIVRD then Delivered
    else if c == EXPIRED then Expired
    else if c == UNDELIV then Undeliverable
    else if c == ACCEPTD then Accepted
    else if c == REJECTD then Rejected
    else if c == UNKNOWN then Unknown
    else if c == [] then Unknown
    else Other(c)
  }

  // DeliveryStatus::to_stat_code
  function ToStatCode(s: DeliveryStatus): (code: Octets) {
    match s
    case Delivered => DELIVRD
    case Expired => EXPIRED
    case Undeliverable => UNDELIV
    case Accepted => ACCEPTD
    case Rejected => REJECTD
    case Unknown => UNKNOWN
    case Other(code) => code
  }

  // A code that is not one of the six, is not empty, and is already in the form codes are compared in.
  predicate Foreign(code: Octets) {
    && code != [] && NoOuterSpace(code) && Upper(code) == code
    && code != DELIVRD && code != EXPIRED && code != UNDELIV
    && code != ACCEPTD && code != REJECTD && code != UNKNOWN
  }

  // A state is recovered from its code exactly when it is one of the six or carries a foreign code.
  lemma StatCodeRoundTrip(s: DeliveryStatus)
    ensures FromStatCode(ToStatCode(s)) == s <==> (s.Other? ==> Foreign(s.code))
  {
    if s.Other? {
      TrimSpaceIs(s.code);
      TrimSpaceIs(TrimSpace(s.code));
      UpperKeepsSpace(TrimSpace(s.code));
      OtherCode(s.code);
    } else {
      SixCodes(ToStatCode(s));
      hide TrimSpace, Upper;
    }
  }

  lemma OtherCode(code: Octets)
    requires NoOuterSpace(Upper(TrimSpace(code))) && Upper(Upper(TrimSpace(code))) == Upper(TrimSpace(code))
    requires TrimSpace(code) == code <==> NoOuterSpace(code)
    ensures FromStatCode(code) == Other(code) <==> Foreign(code)
  {
  }

  lemma UpperKeepsSpace(b: Octets)
    ensures Upper(Upper(b)) == Upper(b)
    ensures NoOuterSpace(Upper(b)) <==> NoOuterSpace(b)
  {
  }

  lemma SixCodes(c: Octets)
    requires c in {DELIVRD, EXPIRED, UNDELIV, ACCEPTD, REJECTD, UNKNOWN}
    ensures |c| == 7 && TrimSpace(c) == c && Upper(c) == c
  {
  }
}
