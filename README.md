# Proof-of-existence pallet, modelled in Dafny

The pallet keeps one storage map, `Proofs`. It maps a claimed proof (an opaque
byte string) to its owner's account and the block in which the record was last
written. It exposes three dispatchable calls:

- `create_claim` stores `(sender, current block)` under a key that is not yet stored.
- `revoke_claim` removes a key, but only for its owner.
- `transfer_claim` re-stores a key under a new owner and the current block, but only for its owner.

Each call runs its guard checks first, then writes storage, then deposits
exactly one event. A failed check returns one of the pallet's errors:
`ProofAlreadyClaim`, `NotSuchProof` or `NotProofOfOwner`. Existence is checked
before ownership.

Files:

- `poe_types.dfy` (module `PoeTypes`): the claim key (`seq<bv8>`), the stored record, the error and event enums, and the call outcome.
- `poe_spec.dfy` (module `PoeSpec`): each call as a pure function of the state (map and event log), the sender and the block. It also holds the per-key state machine `Unclaimed` / `Claimed(owner)` as an independent reference, and the lemmas that relate the two.
- `poe_pallet.dfy` (module `PoePallet`): class `Pallet`. Its fields are the `Proofs` map and the event log, and its methods update them in place, in the code's order. Each method's postcondition equates its result and new state with the specification function. `EndToEnd` is a client that uses only those contracts. It asserts five steps: Alice creates a claim; Bob's revoke fails with `NotProofOfOwner` and the map is unchanged; Alice transfers the claim to Bob; Alice's revoke now fails with `NotProofOfOwner`; Bob's revoke succeeds and the getter then returns nothing.
- `poe_trace.dfy` (module `PoeTrace`): runs of many calls. Over a run the event log is append-only and gains one event per successful call. Replaying the events a run deposits reproduces who owns each claim.

The account type is a type parameter with equality, standing for `T::AccountId`.
Block numbers are `nat`.

## Model

| member | source | states |
|---|---|---|
| PoeSpec.Create | pallets/poe/src/lib.rs:68-84 | succeeds exactly when the key is absent; on success the key maps to (sender, block) and exactly `ClaimCreated(sender, claim)` is appended; on failure the error is `ProofAlreadyClaim` and map and log are unchanged, whoever the sender; no other key changes |
| PoeSpec.Revoke | pallets/poe/src/lib.rs:88-104 | absent key gives `NotSuchProof` for any sender; present key owned by someone else gives `NotProofOfOwner`; succeeds exactly for the owner, then the key is gone and exactly `ClaimRevoked(sender, claim)` is appended; failure changes nothing; no other key changes |
| PoeSpec.Transfer | pallets/poe/src/lib.rs:108-129 | same two checks in the same order as revoke; on success the remove-then-insert leaves the map equal to one overwrite with (toAccount, block) and appends exactly `ClaimTransfer(sender, toAccount, claim)`; failure changes nothing; no other key changes |
| PoeSpec.ApplyFollowsMachine | pallets/poe/src/lib.rs:68-129 | every call's outcome and the next state of its key agree with the reference state machine (including the error kind and the existence-before-ownership order); every other key keeps its record; the log gains its event on success and nothing on failure |
| PoeSpec.ErrorChangesNothing | pallets/poe/src/lib.rs:73-79 | every call that returns an error leaves map and log exactly as they were, because all checks precede the first write |
| PoeSpec.AbsentKeyReportsNotSuchProof | pallets/poe/src/lib.rs:95-97 | on an absent key both `revoke_claim` and `transfer_claim` (lines 116-118) fail with `NotSuchProof`, never `NotProofOfOwner`, whoever the sender, and change nothing |
| PoeSpec.RevokeThenCreate | pallets/poe/src/lib.rs:99-101 | after the owner revokes, a create by any account succeeds and stores its record: no tombstone remains |
| PoeSpec.CreateThenRevoke | pallets/poe/src/lib.rs:75-99 | revoke is the inverse of create: creating an absent key and revoking it as the same account restores the original map |
| PoeSpec.TransferToSelf | pallets/poe/src/lib.rs:116-126 | the owner may transfer to itself; the record's block is refreshed and the event is still deposited |
| PoeSpec.TransferTwice | pallets/poe/src/lib.rs:120-124 | transferring a to b then b to c in one block leaves the same map as transferring a to c |
| PoeSpec.TransferRemovesThenInserts | pallets/poe/src/lib.rs:120-124 | on the owner's transfer, the stored map is both the result of removing the key then inserting `(toAccount, now)` and the result of one overwrite of the key |
| PoeSpec.LookupAfterApply | pallets/poe/src/lib.rs:51-58 | what the storage getter returns after any call: for the call's key, `(sender, now)` after a successful create, nothing after a successful revoke, `(toAccount, now)` after a successful transfer, and the old value after any error; every other key reads as before |
| PoePallet.Pallet.constructor | pallets/poe/src/lib.rs:53-58 | a fresh pallet has no stored claims and no events |
| PoePallet.Pallet.Proofs | pallets/poe/src/lib.rs:51-58 | the storage getter on the object; what it returns after each call is stated by the ensures of `CreateClaim`, `RevokeClaim` and `TransferClaim` and proved for every state by `PoeSpec.LookupAfterApply` |
| PoePallet.Pallet.CreateClaim | pallets/poe/src/lib.rs:68-84 | the in-place `create_claim` returns and leaves exactly what `PoeSpec.Create` specifies; afterwards the getter returns `(sender, currentBlock)` for the key on success and its old value on error, and every other key reads as before |
| PoePallet.Pallet.RevokeClaim | pallets/poe/src/lib.rs:88-104 | the in-place `revoke_claim` (get, compare, remove, deposit) returns and leaves exactly what `PoeSpec.Revoke` specifies; afterwards the getter returns nothing for the key on success and its old value on error, and every other key reads as before |
| PoePallet.Pallet.TransferClaim | pallets/poe/src/lib.rs:108-129 | the in-place `transfer_claim` (get, compare, remove, insert, deposit) returns and leaves exactly what `PoeSpec.Transfer` specifies; afterwards the getter returns `(toAccount, currentBlock)` for the key on success and its old value on error, and every other key reads as before |
| PoePallet.Pallet.Dispatch | pallets/poe/src/lib.rs:63-130 | dispatching any call on the object agrees with `PoeSpec.Apply` |
| PoeTrace.Run | pallets/poe/src/lib.rs:63-130 | over any sequence of calls the event log is append-only: the log at the start is a prefix of the log at the end |
| PoeTrace.RunExtendsLog | pallets/poe/src/lib.rs:79-126 | a run appends exactly one event per successful call |
| PoeTrace.StepReplay | pallets/poe/src/lib.rs:79-126 | one call changes ownership exactly as the events it deposits report |
| PoeTrace.RunReplay | pallets/poe/src/lib.rs:24-36 | over any run, replaying the deposited events from the initial owners gives the final owners |
| PoeTrace.OwnersFromGenesis | pallets/poe/src/lib.rs:24-36 | from an empty pallet, the event log alone determines who owns every claim |

## Left out

- `ensure_signed(origin)` (lines 73, 93, 114) and its `BadOrigin` error: authentication belongs to the framework, so the sender is an already-authenticated parameter.
- `frame_system::Pallet::block_number()` (lines 77, 122): a host accessor, passed in as a parameter. The host's guarantee that block numbers never decrease is not needed by any property here and is not modelled.
- `deposit_event` (line 25): only the appending of the event to a log is modelled, not its delivery.
- The `#[pallet::*]` macros, `Config` and `Hooks` scaffolding, `#[pallet::weight(0)]` fee accounting and `Blake2_128Concat` key hashing: framework plumbing with no logic. Keys are compared as plain byte strings.
- Transaction atomicity and ordering across calls: each method call is one atomic step, and a run applies calls in the given order.
- `T::BlockNumber` and `T::AccountId` widths: block numbers are unbounded naturals and accounts are an abstract type with equality.
- Names: the code's names are used (`ProofAlreadyClaim`, `NotSuchProof`, `NotProofOfOwner`, `ClaimTransfer`).
