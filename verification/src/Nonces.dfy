/** Single-use nonces and the login check order (`comms-core/src/identity.rs`). */
module Nonces {
  import opened Common
  import opened Bytes
  import opened Proto

  const NONCE_TTL_MS: nat := 600_000

  datatype IdentityError =
    | NonceUnknownOrUsed
    | WrongChain(expected: nat, found: nat)
    | DomainMismatch
    | Expired
    | AddressMismatch
    | BadSignatureLength
    | Unrecoverable

  /** Recovery of the signer of a login message, and of a key-binding attestation. */
  type LoginRecovery = (SiweMessage, Blob) -> Option<Wallet>
  type BindingRecovery = (Wallet, Blob, string, string, Blob) -> Option<Wallet>

  /** `saturating_sub` on `u64`. */
  function Age(now: nat, issued: nat): nat
  {
    if now > issued then now - issued else 0
  }

  function Issued(nonces: map<string, nat>, nonce: string, now: nat): map<string, nat>
  {
    (map n | n in nonces && Age(now, nonces[n]) < NONCE_TTL_MS :: nonces[n])[nonce := now]
  }

  /** What a login must satisfy once its nonce has been consumed. */
  function LoginVerdict(recover: LoginRecovery, m: SiweMessage, signature: Blob, domain: string, now: nat)
    : Result<Wallet, IdentityError>
  {
    if m.chainId != CITRATE_CHAIN_ID then Err(WrongChain(CITRATE_CHAIN_ID, m.chainId))
    else if m.domain != domain then Err(DomainMismatch)
    else if now >= m.expiration then Err(Expired)
    else
      match recover(m, signature)
      case None => Err(Unrecoverable)
      case Some(w) => if w != m.address then Err(AddressMismatch) else Ok(w)
  }

  function VerifyBinding(recover: BindingRecovery, p: Publication): Result<(), IdentityError>
  {
    if |p.attestation| != 65 then Err(BadSignatureLength)
    else
      match recover(p.wallet, p.mlsKey, p.relayDomain, p.nonce, p.attestation)
      case None => Err(Unrecoverable)
      case Some(w) => if w != p.wallet then Err(AddressMismatch) else Ok(())
  }

  class NonceStore {
    var nonces: map<string, nat>

    constructor ()
      ensures nonces == map[]
    {
      nonces := map[];
    }

    method Issue(nonce: string, now: nat)
      modifies this
      ensures nonces == Issued(old(nonces), nonce, now)
      ensures forall n :: n in nonces <==> n == nonce || (n in old(nonces) && Age(now, old(nonces)[n]) < NONCE_TTL_MS)
    {
      nonces := map n | n in nonces && Age(now, nonces[n]) < NONCE_TTL_MS :: nonces[n];
      nonces := nonces[nonce := now];
    }

    method Consume(nonce: string) returns (present: bool)
      modifies this
      ensures present == (nonce in old(nonces))
      ensures nonces == old(nonces) - {nonce}
    {
      present := nonce in nonces;
      nonces := nonces - {nonce};
    }

    /** The nonce is spent before any other check, so a failed login cannot be retried with it. */
    method VerifyLogin(recover: LoginRecovery, m: SiweMessage, signature: Blob, domain: string, now: nat)
      returns (r: Result<Wallet, IdentityError>)
      modifies this
      ensures nonces == old(nonces) - {m.nonce}
      ensures m.nonce !in old(nonces) ==> r == Err(NonceUnknownOrUsed)
      ensures m.nonce in old(nonces) ==> r == LoginVerdict(recover, m, signature, domain, now)
    {
      var present := Consume(m.nonce);
      if !present {
        return Err(NonceUnknownOrUsed);
      }
      if m.chainId != CITRATE_CHAIN_ID {
        return Err(WrongChain(CITRATE_CHAIN_ID, m.chainId));
      }
      if m.domain != domain {
        return Err(DomainMismatch);
      }
      if now >= m.expiration {
        return Err(Expired);
      }
      var recovered := recover(m, signature);
      if recovered.None? {
        return Err(Unrecoverable);
      }
      if recovered.value != m.address {
        return Err(AddressMismatch);
      }
      r := Ok(recovered.value);
    }
  }
}
