// Long-message reference numbers: the per-generator counter and the process-wide seeds.
module ReferenceId {
  import opened Bytes

  const GOLDEN_STEP: u64 := 0x9E37_79B1

  // GOLDEN_STEP * GOLDEN_STEP_INVERSE == 1 (mod 2^16)
  const GOLDEN_STEP_INVERSE := 12113

  // The value handed out for counter value n over the time base.
  function Seed(base: u64, n: u64): (seed: u64) {
    WrappingAdd(base, WrappingMul(n, GOLDEN_STEP))
  }

  class ReferenceIdGenerator {
    var counter: u64

    constructor WithValue(value: u64)
      ensures counter == value
    {
      counter := value;
    }

    method NextReferenceId() returns (id: u16)
      modifies this
      ensures id == Low16(old(counter)) && counter == Advance(old(counter), 1)
    {
      id := Low16(counter);
      counter := WrappingAdd(counter, 1);
    }
  }

  class SeedDispenser {
    const base: u64
    var counter: u64

    constructor (timeBase: u64)
      ensures base == timeBase && counter == 0
    {
      base, counter := timeBase, 0;
    }

    method NextSeed() returns (seed: u64)
      modifies this
      ensures seed == Seed(base, old(counter)) && counter == Advance(old(counter), 1)
    {
      seed := WrappingAdd(base, WrappingMul(counter, GOLDEN_STEP));
      counter := WrappingAdd(counter, 1);
    }
  }

  // Distinctness and full period of the low 16 bits

  lemma ModOfMod(x: nat)
    ensures x % 0x1_0000_0000_0000_0000 % 0x1_0000 == x % 0x1_0000
  {
    var q, r := x / 0x1_0000_0000_0000_0000, x % 0x1_0000_0000_0000_0000;
    var k := q * 0x1_0000_0000_0000 + r / 0x1_0000;
    assert r == r / 0x1_0000 * 0x1_0000 + r % 0x1_0000;
    ModUnique(x, k, r % 0x1_0000);
  }

  lemma ModUnique(x: int, k: int, r: int)
    requires 0 <= r < 0x1_0000 && x == k * 0x1_0000 + r
    ensures x % 0x1_0000 == r
  {
  }

  // The wrap-arounds at 2^64 are invisible in the low 16 bits.
  lemma SeedLow16(base: u64, counter: u64, i: nat)
    ensures Low16(Seed(base, Advance(counter, i))) == (base + (counter + i) * GOLDEN_STEP) % 0x1_0000
  {
    var n := Advance(counter, i);
    var m := WrappingMul(n, GOLDEN_STEP);
    var w := 0x1_0000_0000_0000_0000;
    ModOfMod(base + m);
    var q := (counter + i) / w;
    assert counter + i == q * w + n;
    var p := n * GOLDEN_STEP / w;
    assert n * GOLDEN_STEP == p * w + m;
    var x := base + (counter + i) * GOLDEN_STEP;
    assert x == base + m + (q * GOLDEN_STEP + p) * w;
    var t := (base + m) / 0x1_0000;
    ModUnique(x, t + (q * GOLDEN_STEP + p) * 0x1_0000_0000_0000, (base + m) % 0x1_0000);
  }

  // An odd step is invertible modulo 2^16: equal residues come from equal counters.
  lemma StepInjective(base: int, a: int, b: int)
    requires 0 <= b - a < 0x1_0000
    requires (base + a * GOLDEN_STEP) % 0x1_0000 == (base + b * GOLDEN_STEP) % 0x1_0000
    ensures a == b
  {
    var qa, qb := (base + a * GOLDEN_STEP) / 0x1_0000, (base + b * GOLDEN_STEP) / 0x1_0000;
    assert (b - a) * GOLDEN_STEP == (qb - qa) * 0x1_0000;
    var unit := GOLDEN_STEP * GOLDEN_STEP_INVERSE / 0x1_0000;
    assert GOLDEN_STEP * GOLDEN_STEP_INVERSE == unit * 0x1_0000 + 1;
    assert (b - a) * (unit * 0x1_0000 + 1) == (qb - qa) * 0x1_0000 * GOLDEN_STEP_INVERSE;
    assert b - a == ((qb - qa) * GOLDEN_STEP_INVERSE - (b - a) * unit) * 0x1_0000;
  }

  // Any 65536 generators created in a row start at 65536 different references, whatever the
  // time base and however often the counter has wrapped.
  lemma SeedsDistinct(base: u64, counter: u64, i: nat, j: nat)
    requires i < j < i + 0x1_0000
    ensures Low16(Seed(base, Advance(counter, i))) != Low16(Seed(base, Advance(counter, j)))
  {
    SeedLow16(base, counter, i);
    SeedLow16(base, counter, j);
    if Low16(Seed(base, Advance(counter, i))) == Low16(Seed(base, Advance(counter, j))) {
      StepInjective(base, counter + i, counter + j);
    }
  }

  // Full period: every reference is the start of one of them.
  lemma SeedsFullPeriod(base: u64, counter: u64, target: u16) returns (i: nat)
    ensures i < 0x1_0000 && Low16(Seed(base, Advance(counter, i))) == target
  {
    var d := target - base - counter * GOLDEN_STEP;
    i := d * GOLDEN_STEP_INVERSE % 0x1_0000;
    var q := d * GOLDEN_STEP_INVERSE / 0x1_0000;
    assert d * GOLDEN_STEP_INVERSE == q * 0x1_0000 + i;
    var unit := GOLDEN_STEP * GOLDEN_STEP_INVERSE / 0x1_0000;
    assert GOLDEN_STEP * GOLDEN_STEP_INVERSE == unit * 0x1_0000 + 1;
    assert i * GOLDEN_STEP == d * (unit * 0x1_0000 + 1) - q * GOLDEN_STEP * 0x1_0000;
    assert base + (counter + i) * GOLDEN_STEP == (d * unit - q * GOLDEN_STEP) * 0x1_0000 + target;
    ModUnique(base + (counter + i) * GOLDEN_STEP, d * unit - q * GOLDEN_STEP, target);
    SeedLow16(base, counter, i);
  }

  // The references one generator hands out repeat exactly every 65536 calls.
  lemma ReferencesRepeatEvery65536(counter: u64, i: nat, j: nat)
    ensures Low16(Advance(counter, i)) == Low16(Advance(counter, j)) <==> (j - i) % 0x1_0000 == 0
  {
    ModOfMod(counter + i);
    ModOfMod(counter + j);
    var qi, qj := (counter + i) / 0x1_0000, (counter + j) / 0x1_0000;
    var ri, rj := (counter + i) % 0x1_0000, (counter + j) % 0x1_0000;
    assert j - i == (qj - qi) * 0x1_0000 + (rj - ri);
    if rj >= ri {
      ModUnique(j - i, qj - qi, rj - ri);
    } else {
      ModUnique(j - i, qj - qi - 1, rj - ri + 0x1_0000);
    }
  }
}
