/**
 * Runs of the pallet: a sequence of dispatchable calls, each with the block
 * it executes in, applied one after the other. Over a run the event log only
 * grows, it grows by one event per successful call, and replaying the events
 * it gained reproduces who owns which claim.
 */
module PoeTrace {
  import opened PoeTypes
  import opened PoeSpec

  /** A call together with the block number it runs in. */
  datatype Step<A> = Step(call: Call<A>, block: BlockNumber)

  /** The state after running `steps` from `s`, one atomic call at a time.
      The event log is append-only: the log at the start is a prefix of it. */
  function Run<A(==)>(s: State<A>, steps: seq<Step<A>>): (t: State<A>)
    ensures s.events <= t.events
    decreases |steps|
  {
    if steps == [] then s
    else Run(Apply(s, steps[0].call, steps[0].block).post, steps[1..])
  }

  /** How many calls of the run succeed. */
  function Successes<A(==)>(s: State<A>, steps: seq<Step<A>>): nat
    decreases |steps|
  {
    if steps == [] then 0
    else
      var r := Apply(s, steps[0].call, steps[0].block);
      (if r.outcome.Ok? then 1 else 0) + Successes(r.post, steps[1..])
  }

  /** The owner of every stored claim. */
  function Owners<A>(m: Store<A>): map<ProofKey, A>
  {
    map k | k in m :: m[k].owner
  }

  /** The ownership change one event reports. */
  function ReplayEvent<A>(o: map<ProofKey, A>, e: Event<A>): map<ProofKey, A>
  {
    match e
    case ClaimCreated(who, claim) => o[claim := who]
    case ClaimRevoked(_, claim) => o - {claim}
    case ClaimTransfer(_, toAccount, claim) => o[claim := toAccount]
  }

  /** The ownership a sequence of events reports, starting from `o`. */
  function Replay<A>(o: map<ProofKey, A>, es: seq<Event<A>>): map<ProofKey, A>
    decreases |es|
  {
    if es == [] then o else Replay(ReplayEvent(o, es[0]), es[1..])
  }

  /** A run adds exactly one event per successful call. */
  lemma {:induction false} RunExtendsLog<A>(s: State<A>, steps: seq<Step<A>>)
    ensures |Run(s, steps).events| == |s.events| + Successes(s, steps)
    decreases |steps|
  {
    if steps != [] {
      var s1 := Apply(s, steps[0].call, steps[0].block).post;
      ApplyFollowsMachine(s, steps[0].call, steps[0].block);
      RunExtendsLog(s1, steps[1..]);
    }
  }

  /** Replaying a concatenation is replaying its parts in order. */
  lemma {:induction false} ReplayAppend<A>(o: map<ProofKey, A>, xs: seq<Event<A>>, ys: seq<Event<A>>)
    ensures Replay(o, xs + ys) == Replay(Replay(o, xs), ys)
    decreases |xs|
  {
    if xs == [] {
      assert xs + ys == ys;
    } else {
      assert (xs + ys)[1..] == xs[1..] + ys;
      ReplayAppend(ReplayEvent(o, xs[0]), xs[1..], ys);
    }
  }

  /** One call changes ownership exactly as the events it deposits report. */
  lemma StepReplay<A>(s: State<A>, c: Call<A>, now: BlockNumber)
    ensures var r := Apply(s, c, now);
      Owners(r.post.proofs) == Replay(Owners(s.proofs), r.post.events[|s.events|..])
  {
  }

  /** The event log determines ownership: replaying the events a run deposits
      from the owners at its start gives the owners at its end. */
  lemma {:induction false} RunReplay<A>(s: State<A>, steps: seq<Step<A>>)
    ensures Owners(Run(s, steps).proofs) ==
      Replay(Owners(s.proofs), Run(s, steps).events[|s.events|..])
    decreases |steps|
  {
    if steps == [] {
      assert s.events[|s.events|..] == [];
    } else {
      var s1 := Apply(s, steps[0].call, steps[0].block).post;
      var t := Run(s1, steps[1..]);
      StepReplay(s, steps[0].call, steps[0].block);
      ApplyFollowsMachine(s, steps[0].call, steps[0].block);
      RunReplay(s1, steps[1..]);
      var first := s1.events[|s.events|..];
      var rest := t.events[|s1.events|..];
      assert t.events[|s.events|..] == first + rest;
      ReplayAppend(Owners(s.proofs), first, rest);
    }
  }

  /** From genesis (no claims, no events), the whole event log determines
      who owns every claim. */
  lemma OwnersFromGenesis<A>(steps: seq<Step<A>>)
    ensures Owners(Run(State(map[], []), steps).proofs) ==
      Replay(map[], Run(State(map[], []), steps).events)
  {
    var g: State<A> := State(map[], []);
    RunReplay(g, steps);
    assert Owners(g.proofs) == map[];
    assert Run(g, steps).events[0..] == Run(g, steps).events;
  }
}
