/** Account leases with generations (LeaseRepository in runtime/storage/repos.py). */
module Lease {
  import opened Text

  type Time = real
  type WorkerId = string
  type AccountId = string

  datatype Row = Row(worker: WorkerId, generation: nat, until: Time)

  /** The write of `acquire`, decided on a row that may have changed since it was read. */
  function AcquireRows(rows: map<AccountId, Row>, a: AccountId, w: WorkerId, now: Time, ttl: Time, seen: Option<Row>)
    : (map<AccountId, Row>, Option<nat>)
  {
    var until := now + ttl;
    match seen
    case None =>
      if a in rows then (rows, None) else (rows[a := Row(w, 1, until)], Some(1))
    case Some(row) =>
      if row.worker == w then
        if a in rows && rows[a].worker == w then (rows[a := rows[a].(until := until)], Some(row.generation))
          else (rows, None)
      else if row.until > now then (rows, None)
      else if a in rows && rows[a].generation == row.generation && rows[a].until <= now
      then (rows[a := Row(w, row.generation + 1, until)], Some(row.generation + 1))
      else (rows, None)
  }

  function RenewRows(rows: map<AccountId, Row>, a: AccountId, w: WorkerId, generation: nat, now: Time, ttl: Time)
    : (map<AccountId, Row>, bool)
  {
    if a in rows && rows[a].worker == w && rows[a].generation == generation
    then (rows[a := rows[a].(until := now + ttl)], true) else (rows, false)
  }

  class LeaseRepository {
    var rows: map<AccountId, Row>
    const ttl: Time

    constructor (ttl: Time)
      ensures rows == map[] && this.ttl == ttl
    {
      rows := map[];
      this.ttl := ttl;
    }

    /** The second half of acquire, after the row was read at some earlier point. */
    method AcquireSeen(a: AccountId, w: WorkerId, now: Time, seen: Option<Row>) returns (generation: Option<nat>)
      modifies this
      ensures (rows, generation) == AcquireRows(old(rows), a, w, now, ttl, seen)
      ensures generation.None? ==> rows == old(rows)
      ensures generation.Some? ==> a in rows && rows == old(rows)[a := rows[a]]
                                   && rows[a].worker == w && rows[a].until == now + ttl
      ensures seen.None? ==> (generation.Some? <==> a !in old(rows)) && generation in {None, Some(1)}
      ensures seen.Some? && seen.value.worker == w ==>
                && (generation.Some? <==> a in old(rows) && old(rows)[a].worker == w)
                && (generation.Some? ==>
                      generation.value == seen.value.generation && rows[a].generation == old(rows)[a].generation)
      ensures seen.Some? && seen.value.worker != w ==>
                && (generation.Some? <==> seen.value.until <= now && a in old(rows) && old(rows)[a].until <= now
                                          && old(rows)[a].generation == seen.value.generation)
                && (generation.Some? ==>
                      generation.value == old(rows)[a].generation + 1 && rows[a].generation == generation.value)
    {
      var until := now + ttl;
      if seen.None? {
        if a in rows {
          return None;
        }
        rows := rows[a := Row(w, 1, until)];
        return Some(1);
      }
      var row := seen.value;
      if row.worker == w {
        if a !in rows || rows[a].worker != w {
          return None;
        }
        rows := rows[a := rows[a].(until := until)];
        return Some(row.generation);
      }
      if row.until > now {
        return None;
      }
      var newGeneration := row.generation + 1;
      if a !in rows || rows[a].generation != row.generation || rows[a].until > now {
        return None;
      }
      rows := rows[a := Row(w, newGeneration, until)];
      return Some(newGeneration);
    }

    /** acquire with nobody in between: it fails exactly when somebody else holds a live lease, and the
        generation moves exactly when the lease changes hands. */
    method Acquire(a: AccountId, w: WorkerId, now: Time) returns (generation: Option<nat>)
      modifies this
      ensures generation.None? <==> a in old(rows) && old(rows)[a].worker != w && old(rows)[a].until > now
      ensures generation.None? ==> rows == old(rows)
      ensures generation.Some? ==> rows == old(rows)[a := Row(w, generation.value, now + ttl)]
      ensures generation.Some? ==> generation.value == if a !in old(rows) then 1
                else if old(rows)[a].worker == w then old(rows)[a].generation else old(rows)[a].generation + 1
    {
      var seen := if a in rows then Some(rows[a]) else None;
      generation := AcquireSeen(a, w, now, seen);
    }

    method Renew(a: AccountId, w: WorkerId, generation: nat, now: Time) returns (ok: bool)
      modifies this
      ensures (rows, ok) == RenewRows(old(rows), a, w, generation, now, ttl)
      ensures ok <==> a in old(rows) && old(rows)[a].worker == w && old(rows)[a].generation == generation
      ensures rows == if ok then old(rows)[a := Row(w, generation, now + ttl)] else old(rows)
    {
      if a !in rows || rows[a].worker != w || rows[a].generation != generation {
        return false;
      }
      rows := rows[a := rows[a].(until := now + ttl)];
      return true;
    }
  }
}

/** Any number of workers acquire and renew over one clock; a call reads the clock, then the row, then writes. */
module LeaseProtocol {
  import opened Text
  import opened Lease

  type CallId = nat

  datatype Phase =
    | Started                       // acquire: clock read
    | Decided(seen: Option<Row>)    // acquire: row read
    | Renewing(generation: nat)     // renew: clock read

  datatype Call = Call(worker: WorkerId, account: AccountId, now: Time, phase: Phase)

  /** A lease handed to a worker: valid from the clock it read until the time it wrote. */
  datatype Grant = Grant(account: AccountId, worker: WorkerId, generation: nat, from: Time, until: Time)

  datatype System = System(clock: Time, rows: map<AccountId, Row>, calls: map<CallId, Call>, grants: seq<Grant>)

  /** `serial`: a worker issues its lease calls for an account one at a time. */
  datatype Config = Config(ttl: WorkerId -> Time, serial: bool)

  const INITIAL := System(0.0, map[], map[], [])

  datatype Step =
    | Tick(time: Time)
    | BeginAcquire(id: CallId, w: WorkerId, a: AccountId)
    | ReadRow(id: CallId)
    | CommitAcquire(id: CallId)
    | BeginRenew(id: CallId, w: WorkerId, a: AccountId, generation: nat)
    | CommitRenew(id: CallId)
    | Abandon(id: CallId)           // the call dies before its write

  predicate MayBegin(cfg: Config, s: System, id: CallId, w: WorkerId, a: AccountId) {
    && id !in s.calls
    && (cfg.serial ==> forall c :: c in s.calls ==> s.calls[c].worker != w || s.calls[c].account != a)
  }

  function Close(s: System, id: CallId): System {
    s.(calls := s.calls - {id})
  }

  function DoAcquire(cfg: Config, s: System, id: CallId): System
    requires id in s.calls && s.calls[id].phase.Decided?
  {
    var c := s.calls[id];
    var (rows, granted) := AcquireRows(s.rows, c.account, c.worker, c.now, cfg.ttl(c.worker), c.phase.seen);
    var grants := if granted.None? then s.grants
                  else s.grants + [Grant(c.account, c.worker, granted.value, c.now, c.now + cfg.ttl(c.worker))];
    Close(s.(rows := rows, grants := grants), id)
  }

  function DoRenew(cfg: Config, s: System, id: CallId): System
    requires id in s.calls && s.calls[id].phase.Renewing?
  {
    var c := s.calls[id];
    var (rows, ok) := RenewRows(s.rows, c.account, c.worker, c.phase.generation, c.now, cfg.ttl(c.worker));
    var grants := if !ok then s.grants
                  else s.grants + [Grant(c.account, c.worker, c.phase.generation, c.now, c.now + cfg.ttl(c.worker))];
    Close(s.(rows := rows, grants := grants), id)
  }

  function Apply(cfg: Config, s: System, step: Step): System {
    match step
    case Tick(time) => if time >= s.clock then s.(clock := time) else s
    case BeginAcquire(id, w, a) =>
      if MayBegin(cfg, s, id, w, a) then s.(calls := s.calls[id := Call(w, a, s.clock, Started)]) else s
    case ReadRow(id) =>
      if id in s.calls && s.calls[id].phase.Started? then
        var c := s.calls[id];
        s.(calls := s.calls[id := c.(phase := Decided(if c.account in s.rows then Some(s.rows[c.account]) else None))])
      else s
    case CommitAcquire(id) => if id in s.calls && s.calls[id].phase.Decided? then DoAcquire(cfg, s, id) else s
    case BeginRenew(id, w, a, generation) =>
      if MayBegin(cfg, s, id, w, a) then s.(calls := s.calls[id := Call(w, a, s.clock, Renewing(generation))]) else s
    case CommitRenew(id) => if id in s.calls && s.calls[id].phase.Renewing? then DoRenew(cfg, s, id) else s
    case Abandon(id) => Close(s, id)
  }

  function Run(cfg: Config, s: System, steps: seq<Step>): System {
    if steps == [] then s else Apply(cfg, Run(cfg, s, steps[..|steps| - 1]), steps[|steps| - 1])
  }

  // ---------- the invariant ----------

  /** Of two grants of one account: one generation belongs to one worker, and a later generation starts only
      after the window of every earlier one has ended. */
  ghost predicate PairOk(g: Grant, h: Grant) {
    g.account == h.account ==>
      && (g.generation == h.generation ==> g.worker == h.worker)
      && (g.generation < h.generation ==> g.until <= h.from)
  }

  ghost predicate GrantsOrdered(grants: seq<Grant>) {
    forall i, k :: 0 <= i < |grants| && 0 <= k < |grants| ==> PairOk(grants[i], grants[k])
  }

  /** The row is at least as new as every grant and covers its window; older generations have ended by now. */
  ghost predicate GrantOk(g: Grant, rows: map<AccountId, Row>, clock: Time) {
    && g.account in rows
    && g.from <= g.until <= rows[g.account].until
    && g.generation <= rows[g.account].generation
    && (g.generation == rows[g.account].generation ==> g.worker == rows[g.account].worker)
    && (g.generation < rows[g.account].generation ==> g.until <= clock)
  }

  ghost predicate GrantsOk(grants: seq<Grant>, rows: map<AccountId, Row>, clock: Time) {
    forall i :: 0 <= i < |grants| ==> GrantOk(grants[i], rows, clock)
  }

  ghost predicate RowsOk(cfg: Config, rows: map<AccountId, Row>, clock: Time) {
    forall a :: a in rows ==> rows[a].until <= clock + cfg.ttl(rows[a].worker)
  }

  /** Every window of the account's generations before g has ended at t. */
  ghost predicate EndedBy(grants: seq<Grant>, a: AccountId, g: nat, t: Time) {
    forall i :: 0 <= i < |grants| ==> (grants[i].account == a && grants[i].generation < g ==> grants[i].until <= t)
  }

  /** What an open call of the row's own holder may rely on. */
  ghost predicate CallOk(cfg: Config, c: Call, rows: map<AccountId, Row>, clock: Time, grants: seq<Grant>) {
    && c.now <= clock
    && (c.account in rows && rows[c.account].worker == c.worker ==>
          && rows[c.account].until <= c.now + cfg.ttl(c.worker)
          && EndedBy(grants, c.account, rows[c.account].generation, c.now))
    && (c.phase.Decided? && c.phase.seen.Some? ==>
          && c.account in rows
          && c.phase.seen.value.generation <= rows[c.account].generation
          && (rows[c.account].worker == c.worker ==>
                c.phase.seen.value.worker == c.worker && c.phase.seen.value.generation == rows[c.account].generation))
  }

  ghost predicate CallsOk(cfg: Config, s: System) {
    && (forall id :: id in s.calls ==> CallOk(cfg, s.calls[id], s.rows, s.clock, s.grants))
    && (forall id, id' :: id in s.calls && id' in s.calls && id != id' ==>
          s.calls[id].worker != s.calls[id'].worker || s.calls[id].account != s.calls[id'].account)
  }

  ghost predicate Inv(cfg: Config, s: System) {
    GrantsOrdered(s.grants) && GrantsOk(s.grants, s.rows, s.clock) && RowsOk(cfg, s.rows, s.clock) && CallsOk(cfg, s)
  }

  ghost predicate Serialized(cfg: Config) {
    cfg.serial && forall w :: cfg.ttl(w) >= 0.0
  }

  // ---------- preservation ----------

  /** What a call writes when it is granted: the row, and the window that comes with it. */
  ghost function Written(s: System, id: CallId, row: Row): System
    requires id in s.calls
  {
    var c := s.calls[id];
    Close(s.(rows := s.rows[c.account := row], grants := s.grants + [GrantOf(c, row)]), id)
  }

  function GrantOf(c: Call, row: Row): Grant {
    Grant(c.account, c.worker, row.generation, c.now, row.until)
  }

  /** The row is the calling worker's, valid for its ttl from the clock reading of the call. */
  ghost predicate RowFor(cfg: Config, c: Call, row: Row) {
    row.worker == c.worker && row.until == c.now + cfg.ttl(c.worker)
  }

  /** The holder's own write: the window is extended under the same generation. */
  lemma ExtendKeeps(cfg: Config, s: System, id: CallId, row: Row)
    requires Serialized(cfg) && Inv(cfg, s) && id in s.calls && RowFor(cfg, s.calls[id], row)
    requires var c := s.calls[id];
             && c.account in s.rows && s.rows[c.account].worker == c.worker
             && row.generation == s.rows[c.account].generation
    ensures Inv(cfg, Written(s, id, row))
  {
    var c := s.calls[id];
    assert CallOk(cfg, c, s.rows, s.clock, s.grants);
    ExtendedPairs(s.grants, s.rows, s.clock, GrantOf(c, row));
    OthersKeep(cfg, s, id, row);
  }

  /** A new holder: first insert, or takeover of an expired row. */
  lemma TakeKeeps(cfg: Config, s: System, id: CallId, row: Row)
    requires Serialized(cfg) && Inv(cfg, s) && id in s.calls && RowFor(cfg, s.calls[id], row)
    requires var c := s.calls[id];
             c.account in s.rows ==>
               && s.rows[c.account].worker != c.worker && s.rows[c.account].until <= c.now
               && row.generation == s.rows[c.account].generation + 1
    ensures Inv(cfg, Written(s, id, row))
  {
    var c := s.calls[id];
    assert CallOk(cfg, c, s.rows, s.clock, s.grants);
    TakenPairs(s.grants, s.rows, s.clock, GrantOf(c, row));
    OthersKeep(cfg, s, id, row);
  }

  /** A grant of the standing generation that ends no earlier fits in with all earlier ones. */
  lemma ExtendedPairs(grants: seq<Grant>, rows: map<AccountId, Row>, clock: Time, g: Grant)
    requires GrantsOrdered(grants) && GrantsOk(grants, rows, clock) && g.from <= g.until && g.from <= clock
    requires g.account in rows && rows[g.account].worker == g.worker && rows[g.account].generation == g.generation
    requires rows[g.account].until <= g.until && EndedBy(grants, g.account, g.generation, g.from)
    ensures GrantsOrdered(grants + [g])
    ensures GrantsOk(grants + [g], rows[g.account := Row(g.worker, g.generation, g.until)], clock)
  {
    forall i | 0 <= i < |grants|
      ensures GrantOk(grants[i], rows[g.account := Row(g.worker, g.generation, g.until)], clock)
      ensures PairOk(grants[i], g) && PairOk(g, grants[i])
    {
      assert GrantOk(grants[i], rows, clock);
    }
  }

  /** A grant of a new generation starts after every earlier grant of the account has ended. */
  lemma TakenPairs(grants: seq<Grant>, rows: map<AccountId, Row>, clock: Time, g: Grant)
    requires GrantsOrdered(grants) && GrantsOk(grants, rows, clock) && g.from <= g.until && g.from <= clock
    requires g.account in rows ==> rows[g.account].until <= g.from && g.generation == rows[g.account].generation + 1
    ensures GrantsOrdered(grants + [g])
    ensures GrantsOk(grants + [g], rows[g.account := Row(g.worker, g.generation, g.until)], clock)
  {
    forall i | 0 <= i < |grants|
      ensures GrantOk(grants[i], rows[g.account := Row(g.worker, g.generation, g.until)], clock)
      ensures PairOk(grants[i], g) && PairOk(g, grants[i])
    {
      assert GrantOk(grants[i], rows, clock);
    }
  }

  /** Calls of other workers or accounts are not disturbed by a write. */
  lemma OthersKeep(cfg: Config, s: System, id: CallId, row: Row)
    requires Inv(cfg, s) && id in s.calls && RowFor(cfg, s.calls[id], row)
    requires var c := s.calls[id]; c.account in s.rows ==> s.rows[c.account].generation <= row.generation
    ensures RowsOk(cfg, s.rows[s.calls[id].account := row], s.clock)
    ensures CallsOk(cfg, Written(s, id, row))
  {
    var g, rows := GrantOf(s.calls[id], row), s.rows[s.calls[id].account := row];
    assert CallOk(cfg, s.calls[id], s.rows, s.clock, s.grants);
    forall other | other in s.calls && other != id
      ensures CallOk(cfg, s.calls[other], rows, s.clock, s.grants + [g])
    {
      var c := s.calls[other];
      assert CallOk(cfg, c, s.rows, s.clock, s.grants);
      if c.account != g.account && c.account in rows && rows[c.account].worker == c.worker {
        assert EndedBy(s.grants + [g], c.account, rows[c.account].generation, c.now);
      }
    }
  }

  ghost function Granted(cfg: Config, s: System, id: CallId): Option<nat>
    requires id in s.calls && s.calls[id].phase.Decided?
  {
    var c := s.calls[id];
    AcquireRows(s.rows, c.account, c.worker, c.now, cfg.ttl(c.worker), c.phase.seen).1
  }

  predicate SawItself(c: Call) {
    c.phase.Decided? && c.phase.seen.Some? && c.phase.seen.value.worker == c.worker
  }

  /** A granted acquire writes a row of its own: its generation stands, or it is the next after an expired one. */
  lemma AcquireWrites(cfg: Config, s: System, id: CallId, row: Row)
    requires id in s.calls && s.calls[id].phase.Decided? && CallOk(cfg, s.calls[id], s.rows, s.clock, s.grants)
    requires RowFor(cfg, s.calls[id], row)
    requires Granted(cfg, s, id) == Some(row.generation)
    ensures DoAcquire(cfg, s, id) == Written(s, id, row)
    ensures var c := s.calls[id];
            if SawItself(c) then c.account in s.rows && s.rows[c.account].worker == c.worker
                                 && row.generation == s.rows[c.account].generation
            else c.account in s.rows ==> s.rows[c.account].worker != c.worker && s.rows[c.account].until <= c.now
                                         && row.generation == s.rows[c.account].generation + 1
  {}

  lemma RefusedAcquire(cfg: Config, s: System, id: CallId)
    requires id in s.calls && s.calls[id].phase.Decided? && Granted(cfg, s, id).None?
    ensures DoAcquire(cfg, s, id) == Close(s, id)
  {}

  lemma RenewWrites(cfg: Config, s: System, id: CallId, row: Row)
    requires id in s.calls && s.calls[id].phase.Renewing? && RowFor(cfg, s.calls[id], row)
    requires row.generation == s.calls[id].phase.generation
    ensures var c := s.calls[id];
            if c.account in s.rows && s.rows[c.account].worker == c.worker
              && s.rows[c.account].generation == row.generation
            then DoRenew(cfg, s, id) == Written(s, id, row) else DoRenew(cfg, s, id) == Close(s, id)
  {}

  lemma CloseKeeps(cfg: Config, s: System, id: CallId)
    requires Inv(cfg, s)
    ensures Inv(cfg, Close(s, id))
  {}

  lemma CommitAcquireKeeps(cfg: Config, s: System, id: CallId)
    requires Serialized(cfg) && Inv(cfg, s) && id in s.calls && s.calls[id].phase.Decided?
    ensures Inv(cfg, DoAcquire(cfg, s, id))
  {
    var c := s.calls[id];
    if Granted(cfg, s, id).None? {
      RefusedAcquire(cfg, s, id);
      CloseKeeps(cfg, s, id);
    } else {
      var row := Row(c.worker, Granted(cfg, s, id).value, c.now + cfg.ttl(c.worker));
      AcquireWrites(cfg, s, id, row);
      if SawItself(c) {
        ExtendKeeps(cfg, s, id, row);
      } else {
        TakeKeeps(cfg, s, id, row);
      }
    }
  }

  lemma CommitRenewKeeps(cfg: Config, s: System, id: CallId)
    requires Serialized(cfg) && Inv(cfg, s) && id in s.calls && s.calls[id].phase.Renewing?
    ensures Inv(cfg, DoRenew(cfg, s, id))
  {
    var c := s.calls[id];
    var row := Row(c.worker, c.phase.generation, c.now + cfg.ttl(c.worker));
    RenewWrites(cfg, s, id, row);
    if c.account in s.rows && s.rows[c.account].worker == c.worker && s.rows[c.account].generation == row.generation {
      ExtendKeeps(cfg, s, id, row);
    } else {
      CloseKeeps(cfg, s, id);
    }
  }

  lemma BeginKeeps(cfg: Config, s: System, id: CallId, c: Call)
    requires Serialized(cfg) && Inv(cfg, s) && MayBegin(cfg, s, id, c.worker, c.account)
    requires c.now == s.clock && !c.phase.Decided?
    ensures Inv(cfg, s.(calls := s.calls[id := c]))
  {
    if c.account in s.rows {
      forall i | 0 <= i < |s.grants|
        ensures s.grants[i].account == c.account && s.grants[i].generation < s.rows[c.account].generation ==>
                  s.grants[i].until <= c.now
      {
        assert GrantOk(s.grants[i], s.rows, s.clock);
      }
    }
    forall other | other in s.calls
      ensures CallOk(cfg, s.calls[other], s.rows, s.clock, s.grants)
    {
    }
  }

  lemma TickKeeps(cfg: Config, s: System, time: Time)
    requires Inv(cfg, s) && time >= s.clock
    ensures Inv(cfg, s.(clock := time))
  {
    forall i | 0 <= i < |s.grants|
      ensures GrantOk(s.grants[i], s.rows, time)
    {
      assert GrantOk(s.grants[i], s.rows, s.clock);
    }
    forall id | id in s.calls
      ensures CallOk(cfg, s.calls[id], s.rows, time, s.grants)
    {
      assert CallOk(cfg, s.calls[id], s.rows, s.clock, s.grants);
    }
  }

  lemma {:induction false} StepKeeps(cfg: Config, s: System, step: Step)
    requires Serialized(cfg) && Inv(cfg, s)
    ensures Inv(cfg, Apply(cfg, s, step))
  {
    match step
    case Tick(time) => if time >= s.clock { TickKeeps(cfg, s, time); }
    case BeginAcquire(id, w, a) =>
      if MayBegin(cfg, s, id, w, a) { BeginKeeps(cfg, s, id, Call(w, a, s.clock, Started)); }
    case ReadRow(id) =>
      if id in s.calls {
        assert CallOk(cfg, s.calls[id], s.rows, s.clock, s.grants);
      }
    case CommitAcquire(id) => if id in s.calls && s.calls[id].phase.Decided? { CommitAcquireKeeps(cfg, s, id); }
    case BeginRenew(id, w, a, generation) =>
      if MayBegin(cfg, s, id, w, a) { BeginKeeps(cfg, s, id, Call(w, a, s.clock, Renewing(generation))); }
    case CommitRenew(id) => if id in s.calls && s.calls[id].phase.Renewing? { CommitRenewKeeps(cfg, s, id); }
    case Abandon(id) =>
  }

  lemma {:induction false} EveryRunSafe(cfg: Config, steps: seq<Step>)
    requires Serialized(cfg)
    ensures Inv(cfg, Run(cfg, INITIAL, steps))
  {
    if steps != [] {
      EveryRunSafe(cfg, steps[..|steps| - 1]);
      StepKeeps(cfg, Run(cfg, INITIAL, steps[..|steps| - 1]), steps[|steps| - 1]);
    }
  }

  // ---------- results over every run ----------

  /** The validity windows handed to different workers for one account never overlap. */
  lemma WindowsNeverOverlap(cfg: Config, steps: seq<Step>, i: int, k: int)
    requires Serialized(cfg)
    requires var grants := Run(cfg, INITIAL, steps).grants;
             && 0 <= i < |grants| && 0 <= k < |grants|
             && grants[i].account == grants[k].account && grants[i].worker != grants[k].worker
    ensures var grants := Run(cfg, INITIAL, steps).grants;
            grants[i].until <= grants[k].from || grants[k].until <= grants[i].from
  {
    EveryRunSafe(cfg, steps);
    var grants := Run(cfg, INITIAL, steps).grants;
    assert PairOk(grants[i], grants[k]) && PairOk(grants[k], grants[i]);
  }

  /** One generation of one account is never granted to two workers. */
  lemma GenerationHasOneWorker(cfg: Config, steps: seq<Step>, i: int, k: int)
    requires Serialized(cfg)
    requires var grants := Run(cfg, INITIAL, steps).grants;
             && 0 <= i < |grants| && 0 <= k < |grants|
             && grants[i].account == grants[k].account && grants[i].generation == grants[k].generation
    ensures Run(cfg, INITIAL, steps).grants[i].worker == Run(cfg, INITIAL, steps).grants[k].worker
  {
    EveryRunSafe(cfg, steps);
    var grants := Run(cfg, INITIAL, steps).grants;
    assert PairOk(grants[i], grants[k]);
  }

  /** Generations only grow, in any run and from any state, serialized calls or not; a new worker means a new
      generation. */
  lemma {:induction false} GenerationsGrow(cfg: Config, s: System, steps: seq<Step>, a: AccountId)
    requires a in s.rows
    ensures a in Run(cfg, s, steps).rows
    ensures s.rows[a].generation <= Run(cfg, s, steps).rows[a].generation
    ensures s.rows[a].generation == Run(cfg, s, steps).rows[a].generation ==>
              s.rows[a].worker == Run(cfg, s, steps).rows[a].worker
  {
    if steps != [] {
      GenerationsGrow(cfg, s, steps[..|steps| - 1], a);
    }
  }

  /** Once the generation has moved past g, no renew under g succeeds, ever again. */
  lemma OldGenerationNeverRenews(cfg: Config, s: System, steps: seq<Step>, a: AccountId, g: nat, w: WorkerId, now: Time)
    requires a in s.rows && s.rows[a].generation > g
    ensures !RenewRows(Run(cfg, s, steps).rows, a, w, g, now, cfg.ttl(w)).1
  {
    GenerationsGrow(cfg, s, steps, a);
  }

  /** Serializing a worker's calls is needed: two overlapping renews can shorten the row's lease below a window
      already handed out, and a takeover then overlaps it. The second renew reads the clock at half the ttl. */
  function RacingRenews(ttl: Time): seq<Step> {
    [BeginAcquire(0, "w1", "a"), ReadRow(0), CommitAcquire(0),
     BeginRenew(1, "w1", "a", 1), Tick(ttl / 2.0), BeginRenew(2, "w1", "a", 1), CommitRenew(2), CommitRenew(1),
     Tick(ttl), BeginAcquire(3, "w2", "a"), ReadRow(3), CommitAcquire(3)]
  }

  ghost predicate PositiveTtls(cfg: Config) {
    forall w :: cfg.ttl(w) > 0.0
  }

  function RacePrefix(cfg: Config, ttl: Time, n: nat): System
    requires n <= 12
  {
    Run(cfg, INITIAL, RacingRenews(ttl)[..n])
  }

  lemma RaceStep(cfg: Config, ttl: Time, n: nat)
    requires n < 12
    ensures RacePrefix(cfg, ttl, n + 1) == Apply(cfg, RacePrefix(cfg, ttl, n), RacingRenews(ttl)[n])
  {
    assert RacingRenews(ttl)[..n + 1][..n] == RacingRenews(ttl)[..n];
  }

  lemma RaceAcquired(cfg: Config, ttl: Time)
    requires !cfg.serial && ttl == cfg.ttl("w1") > 0.0
    ensures RacePrefix(cfg, ttl, 3) == System(0.0, map["a" := Row("w1", 1, ttl)], map[],
                                              [Grant("a", "w1", 1, 0.0, ttl)])
  {
    assert RacePrefix(cfg, ttl, 0) == INITIAL;
    RaceStep(cfg, ttl, 0);
    assert RacePrefix(cfg, ttl, 1) == System(0.0, map[], map[0 := Call("w1", "a", 0.0, Started)], []);
    RaceStep(cfg, ttl, 1);
    assert RacePrefix(cfg, ttl, 2) == System(0.0, map[], map[0 := Call("w1", "a", 0.0, Decided(None))], []);
    RaceStep(cfg, ttl, 2);
  }

  lemma RaceBegun(cfg: Config, ttl: Time)
    requires !cfg.serial && ttl == cfg.ttl("w1") > 0.0
    ensures var s := RacePrefix(cfg, ttl, 6);
            && s.clock == ttl / 2.0 && s.rows == map["a" := Row("w1", 1, ttl)]
              && s.grants == [Grant("a", "w1", 1, 0.0, ttl)]
            && s.calls.Keys == {1, 2} && s.calls[1] == Call("w1", "a", 0.0, Renewing(1))
            && s.calls[2] == Call("w1", "a", ttl / 2.0, Renewing(1))
  {
    RaceAcquired(cfg, ttl);
    RaceStep(cfg, ttl, 3);
    RaceStep(cfg, ttl, 4);
    RaceStep(cfg, ttl, 5);
  }

  lemma RaceRenewed(cfg: Config, ttl: Time)
    requires !cfg.serial && ttl == cfg.ttl("w1") > 0.0
    ensures var s := RacePrefix(cfg, ttl, 8);
            && s.clock == ttl / 2.0 && s.rows.Keys == {"a"} && s.rows["a"] == Row("w1", 1, ttl) && s.calls.Keys == {}
            && |s.grants| == 3 && s.grants[1] == Grant("a", "w1", 1, ttl / 2.0, ttl / 2.0 + ttl)
  {
    RaceBegun(cfg, ttl);
    RaceStep(cfg, ttl, 6);
    var s := RacePrefix(cfg, ttl, 7);
    assert s.rows["a"] == Row("w1", 1, ttl / 2.0 + ttl) && s.calls.Keys == {1}
           && s.calls[1] == Call("w1", "a", 0.0, Renewing(1));
    RaceStep(cfg, ttl, 7);
  }

  lemma {:induction false} RacingRenewsOverlap(cfg: Config, ttl: Time)
    requires !cfg.serial && ttl == cfg.ttl("w1") > 0.0
    ensures var grants := Run(cfg, INITIAL, RacingRenews(ttl)).grants;
            && |grants| == 4
            && grants[1] == Grant("a", "w1", 1, ttl / 2.0, ttl / 2.0 + ttl)
            && grants[3] == Grant("a", "w2", 2, ttl, ttl + cfg.ttl("w2"))
  {
    RaceRenewed(cfg, ttl);
    RaceStep(cfg, ttl, 8);
    RaceStep(cfg, ttl, 9);
    assert RacePrefix(cfg, ttl, 10).calls[3] == Call("w2", "a", ttl, Started);
    RaceStep(cfg, ttl, 10);
    assert RacePrefix(cfg, ttl, 11).calls[3] == Call("w2", "a", ttl, Decided(Some(Row("w1", 1, ttl))));
    RaceStep(cfg, ttl, 11);
    assert RacingRenews(ttl)[..12] == RacingRenews(ttl);
  }

  predicate Apart(g: Grant, h: Grant) {
    g.account == h.account && g.worker != h.worker ==> g.until <= h.from || h.until <= g.from
  }

  ghost predicate WindowsApart(cfg: Config, steps: seq<Step>) {
    forall g, h :: g in Run(cfg, INITIAL, steps).grants && h in Run(cfg, INITIAL, steps).grants ==> Apart(g, h)
  }

  /** With positive ttls, the windows of different workers are apart in every run exactly when every worker makes its
      lease calls for an account one at a time. */
  lemma {:induction false} WindowsApartIffSerial(cfg: Config)
    requires PositiveTtls(cfg)
    ensures (forall steps :: WindowsApart(cfg, steps)) <==> cfg.serial
  {
    if cfg.serial {
      forall steps
        ensures WindowsApart(cfg, steps)
      {
        EveryRunSafe(cfg, steps);
        var grants := Run(cfg, INITIAL, steps).grants;
        forall g, h | g in grants && h in grants
          ensures Apart(g, h)
        {
          var i :| 0 <= i < |grants| && grants[i] == g;
          var k :| 0 <= k < |grants| && grants[k] == h;
          assert PairOk(grants[i], grants[k]) && PairOk(grants[k], grants[i]);
        }
      }
    } else {
      var steps := RacingRenews(cfg.ttl("w1"));
      RacingRenewsOverlap(cfg, cfg.ttl("w1"));
      var grants := Run(cfg, INITIAL, steps).grants;
      assert !Apart(grants[1], grants[3]);
      assert !WindowsApart(cfg, steps);
    }
  }
}
