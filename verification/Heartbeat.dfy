/** The lease heartbeat loop (runtime/account/lease_heartbeat.py). */
module Heartbeat {
  import opened Text
  import opened Lease
  import opened LeaseProtocol

  datatype State = Idle | Running | Lost | Stopped

  datatype Outcome = Renewed | Refused | Raised

  datatype Reason = LeaseLost | RenewError

  /** One turn of the loop: what renew did, and whether stop() was called while renew or the sleep was awaited. */
  datatype Round = Round(outcome: Outcome, stopWhileRenewing: bool, stopWhileSleeping: bool)

  /** The round lets the loop go on. */
  predicate GoesOn(r: Round) {
    r.outcome == Renewed && !r.stopWhileRenewing && !r.stopWhileSleeping
  }

  /** How many rounds pass before the first one that does not go on. */
  function GoodRounds(rounds: seq<Round>): (n: nat)
    ensures n <= |rounds|
    ensures forall i :: 0 <= i < n ==> GoesOn(rounds[i])
    ensures n < |rounds| ==> !GoesOn(rounds[n])
  {
    if rounds == [] || !GoesOn(rounds[0]) then 0 else 1 + GoodRounds(rounds[1..])
  }

  /** Where a loop over some rounds ends: its state, the good renews counted, and the calls of on_lost it made. */
  function LoopEnd(rounds: seq<Round>): (State, nat, seq<Reason>) {
    if rounds == [] then (Running, 0, [])
    else
      match rounds[0].outcome
      case Raised => (Lost, 0, [RenewError])
      case Refused => (Lost, 0, [LeaseLost])
      case Renewed =>
        if rounds[0].stopWhileRenewing || rounds[0].stopWhileSleeping then (Stopped, 1, [])
        else
          var (state, renews, lost) := LoopEnd(rounds[1..]);
          (state, renews + 1, lost)
  }

  class LeaseHeartbeat {
    var state: State
    var renewCount: nat
    var lostCalls: seq<Reason>   // the calls of on_lost so far

    constructor ()
      ensures state == Idle && renewCount == 0 && lostCalls == []
    {
      state, renewCount, lostCalls := Idle, 0, [];
    }

    method Stop()
      modifies this`state
      ensures state == if old(state) == Running then Stopped else old(state)
    {
      if state == Running {
        state := Stopped;
      }
    }

    method Tick(outcome: Outcome, stopWhileRenewing: bool) returns (owned: bool)
      modifies this
      ensures owned <==> outcome == Renewed
      ensures owned ==> renewCount == old(renewCount) + 1 && lostCalls == old(lostCalls)
      ensures owned ==> state == if stopWhileRenewing && old(state) == Running then Stopped else old(state)
      ensures !owned ==> state == Lost && renewCount == old(renewCount)
      ensures !owned ==> lostCalls == old(lostCalls) + [if outcome == Raised then RenewError else LeaseLost]
    {
      if stopWhileRenewing {
        Stop();
      }
      var reason := if outcome == Raised then RenewError else LeaseLost;
      if outcome == Renewed {
        renewCount := renewCount + 1;
        return true;
      }
      state := Lost;
      lostCalls := lostCalls + [reason];
      return false;
    }

    /** The loop over the rounds that happen; with none left it is still running. The first round that does not
        go on decides: a failed renew ends in Lost with exactly one on_lost call - even when stop() came during
        that renew - and a stop after a good renew ends in Stopped without any. */
    method Run(rounds: seq<Round>)
      modifies this
      ensures var (end, renews, lost) := LoopEnd(rounds);
              state == end && renewCount == old(renewCount) + renews && lostCalls == old(lostCalls) + lost
      ensures var n := GoodRounds(rounds);
              && (n == |rounds| ==>
                  state == Running && lostCalls == old(lostCalls) && renewCount == old(renewCount) + n)
              && (n < |rounds| && rounds[n].outcome != Renewed ==>
                    && state == Lost && renewCount == old(renewCount) + n
                    && lostCalls == old(lostCalls) + [if rounds[n].outcome == Raised then RenewError else LeaseLost])
              && (n < |rounds| && rounds[n].outcome == Renewed ==>
                    state == Stopped && lostCalls == old(lostCalls) && renewCount == old(renewCount) + n + 1)
    {
      state := Running;
      LoopEndAt(rounds);
      var i := 0;
      while state == Running && i < |rounds|
        invariant 0 <= i <= |rounds| && state in {Running, Stopped} && lostCalls == old(lostCalls)
        invariant state == Running ==>
                    GoodRounds(rounds) == i + GoodRounds(rounds[i..]) && renewCount == old(renewCount) + i
        invariant state == Stopped ==> GoodRounds(rounds) < |rounds| && rounds[GoodRounds(rounds)].outcome == Renewed
                                       && renewCount == old(renewCount) + GoodRounds(rounds) + 1
        decreases |rounds| - i, state == Running
      {
        assert rounds[i..][0] == rounds[i] && rounds[i..][1..] == rounds[i + 1..];
        var owned := Tick(rounds[i].outcome, rounds[i].stopWhileRenewing);
        if !owned {
          return;
        }
        if rounds[i].stopWhileSleeping {
          Stop();
        }
        i := i + 1;
      }
    }
  }

  /** The first round that does not go on ends the loop. */
  lemma {:induction false} LoopEndAt(rounds: seq<Round>)
    ensures var n := GoodRounds(rounds);
            LoopEnd(rounds) == if n == |rounds| then (Running, n, [])
                               else match rounds[n].outcome
                                 case Raised => (Lost, n, [RenewError])
                                 case Refused => (Lost, n, [LeaseLost])
                                 case Renewed => (Stopped, n + 1, [])
  {
    if rounds != [] && GoesOn(rounds[0]) {
      LoopEndAt(rounds[1..]);
    }
  }

  /** What a heartbeat sees of a renew: an exception, or whether the update hit its row. */
  function Seen(raised: bool, hit: bool): Outcome {
    if raised then Raised else if hit then Renewed else Refused
  }

  /** The good rounds before round m are those the loop has run so far. */
  lemma {:induction false} GoodUpTo(rounds: seq<Round>, m: nat)
    requires m < |rounds| && !GoesOn(rounds[m]) && forall i :: 0 <= i < m ==> GoesOn(rounds[i])
    ensures GoodRounds(rounds) == m
  {
    if m > 0 {
      GoodUpTo(rounds[1..], m - 1);
    }
  }

  /** A loop that has been running for m good rounds when the lease is taken over ends with its next renew, whenever
      that commits and whatever rounds follow: in LOST, with m renews counted and exactly one call of on_lost. */
  lemma {:induction false} TakeoverEndsHeartbeat(cfg: Config, s: System, steps: seq<Step>, a: AccountId, g: nat,
                                                 w: WorkerId, now: Time,
                                                 rounds: seq<Round>, m: nat, raised: bool)
    requires a in s.rows && s.rows[a].generation > g
    requires m < |rounds| && forall i :: 0 <= i < m ==> GoesOn(rounds[i])
    requires rounds[m].outcome == Seen(raised,
                                       RenewRows(LeaseProtocol.Run(cfg, s, steps).rows, a, w, g, now, cfg.ttl(w)).1)
    ensures GoodRounds(rounds) == m
    ensures LoopEnd(rounds) == (Lost, m, [if raised then RenewError else LeaseLost])
  {
    OldGenerationNeverRenews(cfg, s, steps, a, g, w, now);
    GoodUpTo(rounds, m);
    LoopEndAt(rounds);
  }
}
