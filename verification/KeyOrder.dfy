/**
  The order in which keys are derived. The pair (number of root steps, number of
  chain steps) below a key only grows along a derivation.
 */
module KeyOrder {
  import opened Octets

  /** Root derivations below an octet, and below a key by its first octet. */
  ghost function RootStepsOf(o: Octet): nat {
    match o
    case Out(Hmac(key, _), _) => if key == [] then 0 else RootStepsOf(key[0])
    case Out(Hkdf(salt, _, _), _) => if salt == [] then 1 else RootStepsOf(salt[0]) + 1
    case _ => 0
  }

  ghost function RootSteps(b: Bytes): nat {
    if b == [] then 0 else RootStepsOf(b[0])
  }

  /** Chain derivations since the last root derivation. */
  ghost function ChainStepsOf(o: Octet): nat {
    match o
    case Out(Hmac(key, _), _) => if key == [] then 1 else ChainStepsOf(key[0]) + 1
    case _ => 0
  }

  ghost function ChainSteps(b: Bytes): nat {
    if b == [] then 0 else ChainStepsOf(b[0])
  }

  /** `a` was derived no later than `b`. */
  ghost predicate NotAfter(a: Bytes, b: Bytes) {
    RootSteps(a) < RootSteps(b) || (RootSteps(a) == RootSteps(b) && ChainSteps(a) <= ChainSteps(b))
  }

  lemma ChainSucceeds(ck: Bytes)
    ensures RootSteps(MessageKey(ck)) == RootSteps(NextChainKey(ck)) == RootSteps(ck)
    ensures ChainSteps(MessageKey(ck)) == ChainSteps(NextChainKey(ck)) == ChainSteps(ck) + 1
  {
    assert MessageKey(ck)[0] == Out(Hmac(ck, [Lit(1)]), 0);
    assert NextChainKey(ck)[0] == Out(Hmac(ck, [Lit(2)]), 0);
  }

  lemma RootSucceeds(rk: Bytes, dh: Bytes)
    ensures RootSteps(RootKdf(rk, dh).0) == RootSteps(RootKdf(rk, dh).1) == RootSteps(rk) + 1
    ensures ChainSteps(RootKdf(rk, dh).1) == 0
  {
    var t := Hkdf(rk, dh, "OMEMO Root Chain");
    assert RootKdf(rk, dh).0[0] == Out(t, 0);
    assert RootKdf(rk, dh).1[0] == Out(t, 32);
  }

  // -------------------------------------------------------------------------------- descent

  /** An octet of what is derived from `base` by chain steps and root steps. */
  ghost predicate OctetFrom(base: Bytes, o: Octet) {
    match o
    case Out(Hmac(key, _), _) => key == base || (key != [] && OctetFrom(base, key[0]))
    case Out(Hkdf(salt, _, _), _) => salt == base || (salt != [] && OctetFrom(base, salt[0]))
    case _ => false
  }

  /** `k` is `base`, or derived from it by chain steps and root steps. */
  ghost predicate From(base: Bytes, k: Bytes) {
    k == base || (k != [] && OctetFrom(base, k[0]))
  }

  lemma ChainFrom(base: Bytes, ck: Bytes)
    requires From(base, ck)
    ensures From(base, MessageKey(ck)) && From(base, NextChainKey(ck))
  {
    assert MessageKey(ck)[0] == Out(Hmac(ck, [Lit(1)]), 0);
    assert NextChainKey(ck)[0] == Out(Hmac(ck, [Lit(2)]), 0);
  }

  lemma RootFrom(base: Bytes, rk: Bytes, dh: Bytes)
    requires From(base, rk)
    ensures From(base, RootKdf(rk, dh).0) && From(base, RootKdf(rk, dh).1)
  {
    var t := Hkdf(rk, dh, "OMEMO Root Chain");
    assert RootKdf(rk, dh).0[0] == Out(t, 0);
    assert RootKdf(rk, dh).1[0] == Out(t, 32);
  }

  /** The key of an absent chain descends from nothing but itself. */
  lemma FromNothing(base: Bytes)
    requires base != []
    ensures From(base, MessageKey([])) <==> base == MessageKey([])
  {
    assert MessageKey([])[0] == Out(Hmac([], [Lit(1)]), 0);
  }

  // -------------------------------------------------------------- branches of the derivation

  /** The root derivation of a root key and an agreement. */
  function RootTerm(rk: Bytes, dh: Bytes): Term {
    Hkdf(rk, dh, "OMEMO Root Chain")
  }

  /** Derivation `t` lies on the way down from an octet. */
  ghost predicate OctetUnder(t: Term, o: Octet) {
    o.Out? &&
    (|| o.term == t
     || match o
        case Out(Hmac(key, _), _) => key != [] && OctetUnder(t, key[0])
        case Out(Hkdf(salt, _, _), _) => salt != [] && OctetUnder(t, salt[0])
        case _ => false)
  }

  /** `b` was derived through `t`. */
  ghost predicate Under(t: Term, b: Bytes) {
    b != [] && OctetUnder(t, b[0])
  }

  lemma ChainUnder(t: Term, ck: Bytes)
    requires t.Hkdf?
    ensures Under(t, MessageKey(ck)) <==> Under(t, ck)
    ensures Under(t, NextChainKey(ck)) <==> Under(t, ck)
  {
    assert MessageKey(ck)[0] == Out(Hmac(ck, [Lit(1)]), 0);
    assert NextChainKey(ck)[0] == Out(Hmac(ck, [Lit(2)]), 0);
  }

  lemma RootUnder(t: Term, rk: Bytes, dh: Bytes)
    ensures Under(t, RootKdf(rk, dh).0) <==> t == RootTerm(rk, dh) || Under(t, rk)
    ensures Under(t, RootKdf(rk, dh).1) <==> t == RootTerm(rk, dh) || Under(t, rk)
  {
    assert RootKdf(rk, dh).0[0] == Out(RootTerm(rk, dh), 0);
    assert RootKdf(rk, dh).1[0] == Out(RootTerm(rk, dh), 32);
  }

  lemma {:induction false} OctetUnderRoots(t: Term, o: Octet)
    requires t.Hkdf? && OctetUnder(t, o)
    ensures RootStepsOf(o) >= RootSteps(t.salt) + 1
    decreases o
  {
    if o.term == t {
    } else {
      match o.term
      case Hmac(key, _) => OctetUnderRoots(t, key[0]);
      case Hkdf(salt, _, _) => OctetUnderRoots(t, salt[0]);
    }
  }

  /** What was derived through a root derivation is at least as many root steps deep. */
  lemma UnderRoots(t: Term, b: Bytes)
    requires t.Hkdf? && Under(t, b)
    ensures RootSteps(b) >= RootSteps(t.salt) + 1
  {
    OctetUnderRoots(t, b[0]);
  }

  /** An agreement by a private key is not one between two other ones. */
  lemma OtherAgreement(priv: Bytes, peer: Bytes, x: Bytes, y: Bytes)
    requires priv != x && priv != y && X25519(priv, peer).Ok?
    ensures X25519(priv, peer).value != SharedSecret(x, y)
  {
    assert priv !in {x, y};
    assert SharedSecret(x, y)[0] == Out(SharedBy({x, y}), 0);
  }
}
