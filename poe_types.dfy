/**
 * Types of the proof-of-existence pallet: the claim key, the record stored
 * under it, the pallet's error and event enums, and the outcome of one
 * dispatchable call.
 */
module PoeTypes {

  /** The claimed proof: an opaque byte string (`Vec<u8>`), used only as a storage key. */
  type ProofKey = seq<bv8>

  /** The host's block number; unbounded here. */
  type BlockNumber = nat

  /** The value stored under a claim: `(T::AccountId, T::BlockNumber)`. */
  datatype Record<A> = Record(owner: A, block: BlockNumber)

  /** The `Proofs` storage map. Absence of a key is the only "unclaimed" state. */
  type Store<A> = map<ProofKey, Record<A>>

  /** The pallet's error enum, with the code's own variant names. */
  datatype Error = ProofAlreadyClaim | NotSuchProof | NotProofOfOwner

  /** The pallet's event enum, with the code's own variant names. */
  datatype Event<A> =
    | ClaimCreated(who: A, claim: ProofKey)
    | ClaimRevoked(who: A, claim: ProofKey)
    | ClaimTransfer(sender: A, toAccount: A, claim: ProofKey)

  /** What a dispatchable returns: `Ok(())` or one of the pallet's errors. */
  datatype Outcome = Ok | Err(error: Error)

  datatype Option<T> = None | Some(value: T)
}
