/** The claims inbox drops the newest when full, so an early claim cannot be pushed out. */
module RelayClaims {
  import opened Bytes
  import opened Proto
  import opened RelayState
  import opened RelaySteps
  import opened RelayEffects

  function ClaimsFor(s: Relay, th: Digest): seq<Claim>
  {
    if th in s.claims then s.claims[th] else []
  }

  /** At most sixteen claims per token, each filed under its own token, no two with one ciphertext. */
  predicate Tidy(s: Relay, th: Digest)
  {
    var q := ClaimsFor(s, th);
    && |q| <= MAX_CLAIMS_PER_TOKEN
    && (forall i :: 0 <= i < |q| ==> q[i].tokenHash == th)
    && (forall i, j :: 0 <= i < j < |q| ==> q[i].ciphertext != q[j].ciphertext)
  }

  lemma ClaimStep(c: Crypto, s: Relay, op: Op, th: Digest)
    requires op.OpSubmitClaim?
    ensures ClaimsFor(s, th) <= ClaimsFor(Step(c, s, op).state, th)
    ensures Tidy(s, th) ==> Tidy(Step(c, s, op).state, th)
  {
    hide RegisterGroup, PublishKeyPackage, RedeemInvite, Onboard, Offboard, SubmitAs;
  }

  lemma OthersKeepClaims(c: Crypto, s: Relay, op: Op)
    requires !op.OpSubmitClaim? && !op.OpClearClaims? && !op.OpRestart?
    ensures Step(c, s, op).state.claims == s.claims
  {
    hide Onboard, Offboard, SubmitAs, PublishKeyPackage;
    if op.OpOnboard? || op.OpOffboard? || op.OpSubmit? {
      OrderedFrame(c, s, op);
    } else if op.OpPublishKeyPackage? {
      PublishEffect(c, s, op);
    }
  }

  predicate Clears(op: Op, th: Digest)
  {
    op == OpClearClaims(th) || op.OpRestart?
  }

  /**
   * Until it is cleared or the relay restarts, a token's inbox only grows at its end, so every claim
   * it holds stays.
   */
  lemma {:induction false} EarlyClaimsStay(c: Crypto, s: Relay, ops: seq<Op>, th: Digest)
    requires Tidy(s, th) && forall i :: 0 <= i < |ops| ==> !Clears(ops[i], th)
    ensures ClaimsFor(s, th) <= ClaimsFor(Exec(c, s, ops), th) && Tidy(Exec(c, s, ops), th)
  {
    hide Step, Tidy;
    if ops != [] {
      var before, op := ops[..|ops| - 1], ops[|ops| - 1];
      var t := Exec(c, s, before);
      EarlyClaimsStay(c, s, before, th);
      assert !Clears(op, th);
      if op.OpSubmitClaim? {
        ClaimStep(c, t, op, th);
      } else if op.OpClearClaims? {
        ClearOther(c, t, op, th);
      } else {
        OthersKeepClaims(c, t, op);
        SameClaims(t, Step(c, t, op).state, th);
      }
    }
  }

  lemma SameClaims(s: Relay, s': Relay, th: Digest)
    requires Tidy(s, th) && ClaimsFor(s', th) == ClaimsFor(s, th)
    ensures Tidy(s', th)
  {
  }

  lemma ClearOther(c: Crypto, s: Relay, op: Op, th: Digest)
    requires op.OpClearClaims? && op.tokenHash != th && Tidy(s, th)
    ensures ClaimsFor(Step(c, s, op).state, th) == ClaimsFor(s, th) && Tidy(Step(c, s, op).state, th)
  {
    hide RegisterGroup, PublishKeyPackage, RedeemInvite, Onboard, Offboard, SubmitAs;
  }
}
