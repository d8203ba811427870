/**
 The nonce source (internal/hyperliquid/signing/nonce.go). Nonces are natural numbers here: the
 64-bit counter is assumed not to wrap.
 */
module Nonces {
  class NonceGenerator {
    var last: nat

    constructor ()
      ensures last == 0
    {
      last := 0;
    }

    /** A new process starts with a new generator. */
    method Renew()
      modifies this
      ensures last == 0
    {
      last := 0;
    }

    /** Next: the clock in milliseconds, or one past the last nonce when the clock has not moved on. */
    method Next(now: nat) returns (nonce: nat)
      modifies this
      ensures nonce == last && old(last) < nonce && now <= nonce
      ensures nonce == now || nonce == old(last) + 1
    {
      nonce := now;
      if nonce <= last {
        nonce := last + 1;
      }
      last := nonce;
    }
  }
}
