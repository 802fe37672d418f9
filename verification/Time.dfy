// Instants, in ticks of a monotone clock.
module Time {

  // Instant::elapsed; it saturates at zero.
  function Elapsed(now: nat, since: nat): (d: nat) {
    if now >= since then now - since else 0
  }
}
