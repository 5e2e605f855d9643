/**
 * The proof-of-existence pallet as an object: the `Proofs` storage map and the
 * deposited events are fields, and the three dispatchable calls update them in
 * place, guard checks first, then the storage writes, then one event. The
 * authenticated sender and the current block number are parameters.
 */
module PoePallet {
  import opened PoeTypes
  import PoeSpec

  class Pallet<A(==)> {
    /** The `Proofs` storage map: claim -> (owner, block). */
    var proofs: Store<A>
    /** The events deposited so far, oldest first. */
    var events: seq<Event<A>>

    /** The pallet state as a value, for the specification. */
    ghost function State(): PoeSpec.State<A>
      reads this
    {
      PoeSpec.State(proofs, events)
    }

    /** Genesis: no claims and no events. */
    constructor ()
      ensures proofs == map[] && events == []
    {
      proofs := map[];
      events := [];
    }

    /** The storage getter `proofs(claim)`. */
    function Proofs(claim: ProofKey): Option<Record<A>>
      reads this
    {
      PoeSpec.Lookup(proofs, claim)
    }

    /** `create_claim` at block `currentBlock`. */
    method CreateClaim(sender: A, claim: ProofKey, currentBlock: BlockNumber) returns (r: Outcome)
      modifies this
      ensures PoeSpec.Effect(r, State()) == PoeSpec.Create(old(State()), sender, claim, currentBlock)
      ensures Proofs(claim) == if r.Ok? then Some(Record(sender, currentBlock)) else old(Proofs(claim))
      ensures forall k :: k != claim ==> Proofs(k) == old(Proofs(k))
    {
      if claim in proofs {
        return Err(ProofAlreadyClaim);
      }
      proofs := proofs[claim := Record(sender, currentBlock)];
      events := events + [ClaimCreated(sender, claim)];
      return Ok;
    }

    /** `revoke_claim`. */
    method RevokeClaim(sender: A, claim: ProofKey) returns (r: Outcome)
      modifies this
      ensures PoeSpec.Effect(r, State()) == PoeSpec.Revoke(old(State()), sender, claim)
      ensures Proofs(claim) == if r.Ok? then None else old(Proofs(claim))
      ensures forall k :: k != claim ==> Proofs(k) == old(Proofs(k))
    {
      var stored := Proofs(claim);
      if stored.None? {
        return Err(NotSuchProof);
      }
      var owner := stored.value.owner;
      if sender != owner {
        return Err(NotProofOfOwner);
      }
      proofs := proofs - {claim};
      events := events + [ClaimRevoked(sender, claim)];
      return Ok;
    }

    /** `transfer_claim` at block `currentBlock`. */
    method TransferClaim(sender: A, claim: ProofKey, toAccount: A, currentBlock: BlockNumber) returns (r: Outcome)
      modifies this
      ensures PoeSpec.Effect(r, State()) == PoeSpec.Transfer(old(State()), sender, claim, toAccount, currentBlock)
      ensures Proofs(claim) == if r.Ok? then Some(Record(toAccount, currentBlock)) else old(Proofs(claim))
      ensures forall k :: k != claim ==> Proofs(k) == old(Proofs(k))
    {
      var stored := Proofs(claim);
      if stored.None? {
        return Err(NotSuchProof);
      }
      var owner := stored.value.owner;
      if sender != owner {
        return Err(NotProofOfOwner);
      }
      proofs := proofs - {claim};
      proofs := proofs[claim := Record(toAccount, currentBlock)];
      events := events + [ClaimTransfer(sender, toAccount, claim)];
      return Ok;
    }

    /** Dispatch one call at block `currentBlock`. */
    method Dispatch(c: PoeSpec.Call<A>, currentBlock: BlockNumber) returns (r: Outcome)
      modifies this
      ensures PoeSpec.Effect(r, State()) == PoeSpec.Apply(old(State()), c, currentBlock)
    {
      match c
      case CreateClaim(sender, claim) => r := CreateClaim(sender, claim, currentBlock);
      case RevokeClaim(sender, claim) => r := RevokeClaim(sender, claim);
      case TransferClaim(sender, claim, toAccount) => r := TransferClaim(sender, claim, toAccount, currentBlock);
    }
  }

  /** The end-to-end scenario: Alice claims, Bob cannot revoke, Alice
      transfers to Bob, Alice can no longer revoke, Bob revokes. Only the
      pallet's contracts are used. */
  method EndToEnd()
  {
    var alice, bob := 1, 2;
    var proof1: ProofKey := [0x70, 0x72, 0x6f, 0x6f, 0x66, 0x31];
    var pallet := new Pallet<nat>();

    var r := pallet.CreateClaim(alice, proof1, 5);
    assert r == Ok && pallet.events == [ClaimCreated(alice, proof1)];

    r := pallet.RevokeClaim(bob, proof1);
    assert r == Err(NotProofOfOwner) && pallet.proofs == map[proof1 := Record(alice, 5)];

    r := pallet.TransferClaim(alice, proof1, bob, 7);
    assert r == Ok && pallet.proofs[proof1] == Record(bob, 7);
    assert pallet.events[1] == ClaimTransfer(alice, bob, proof1);

    r := pallet.RevokeClaim(alice, proof1);
    assert r == Err(NotProofOfOwner);

    r := pallet.RevokeClaim(bob, proof1);
    assert r == Ok && pallet.Proofs(proof1) == None;
    assert |pallet.events| == 3;
  }
}
