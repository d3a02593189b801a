/** Batch execution (`ExecuteBatch`, internal/core/services/payout.go): a
    persistence loop that stops at the first failed save, then one worker per
    payout. The workers run concurrently in the source and write disjoint rows;
    here they run one after another in the order `order`, an arbitrary schedule
    chosen by the caller of the model. */
module Engine {

  import opened Wrappers
  import opened Domain
  import opened SqlStore
  import opened Workflow

  /** The copy the save loop persists: the batch id and PENDING are stamped on,
      whatever those fields held, with the clock's reading for that iteration. */
  function Stamp(p: Payout, batchId: string, now: int): Payout {
    p.(batchId := batchId, status := StatusPending, createdAt := now)
  }

  function Stamped(payouts: seq<Payout>, batchId: string, clock: nat -> int, j: nat): Payout
    requires j < |payouts|
  {
    Stamp(payouts[j], batchId, clock(j))
  }

  function SaveErrorText(id: string, cause: string): string {
    "failed to save payout " + id + ": " + cause
  }

  /** The save of payouts[j], as stamped, is accepted by the database. */
  predicate SaveAccepted(repo: Repo, clock: nat -> int, batchId: string, payouts: seq<Payout>, j: nat)
    requires j < |payouts|
  {
    repo.saveFailure(Stamped(payouts, batchId, clock, j)).None?
  }

  /** Outcome of the save loop: the table, the saves attempted, how many
      succeeded before the loop stopped, and the error it stopped with. */
  datatype Persisted = Persisted(table: Table, effects: seq<Effect>, saved: nat, failure: Option<string>)

  /** The save loop from index `i` on. */
  function Persist(repo: Repo, clock: nat -> int, t: Table, batchId: string,
                   payouts: seq<Payout>, i: nat): (r: Persisted)
    requires i <= |payouts|
    ensures i <= r.saved <= |payouts|
    ensures r.failure.None? <==> r.saved == |payouts|
    ensures forall j | i <= j < r.saved :: SaveAccepted(repo, clock, batchId, payouts, j)
    ensures r.failure.Some? ==>
      && !SaveAccepted(repo, clock, batchId, payouts, r.saved)
      && r.failure == Some(SaveErrorText(payouts[r.saved].id,
                                         repo.saveFailure(Stamped(payouts, batchId, clock, r.saved)).value))
    // the saves attempted: those that succeeded and, on failure, the failing one
    ensures |r.effects| == r.saved - i + (if r.failure.Some? then 1 else 0)
    ensures forall j | 0 <= j < |r.effects| :: r.effects[j] == Saved(Stamped(payouts, batchId, clock, i + j))
    decreases |payouts| - i
  {
    if i == |payouts| then
      Persisted(t, [], i, None)
    else
      var p := Stamped(payouts, batchId, clock, i);
      if repo.saveFailure(p).Some? then
        Persisted(t, [Saved(p)], i, Some(SaveErrorText(payouts[i].id, repo.saveFailure(p).value)))
      else
        var rest := Persist(repo, clock, SavePayout(t, p, None).table, batchId, payouts, i + 1);
        var effects := [Saved(p)] + rest.effects;
        assert forall j | 1 <= j < |effects| :: effects[j] == rest.effects[j - 1];
        Persisted(rest.table, effects, rest.saved, rest.failure)
  }

  /** The ids of payouts[lo..hi]. */
  function IdsOf(payouts: seq<Payout>, lo: nat, hi: nat): set<string>
    requires lo <= hi <= |payouts|
  {
    set j | lo <= j < hi :: payouts[j].id
  }

  lemma IdsOfStep(payouts: seq<Payout>, lo: nat, hi: nat)
    requires lo < hi <= |payouts|
    ensures IdsOf(payouts, lo, hi) == {payouts[lo].id} + IdsOf(payouts, lo + 1, hi)
  {
  }

  /** The save loop adds exactly the saved payouts' rows and leaves every
      other row as it was. */
  lemma {:induction false} PersistKeys(repo: Repo, clock: nat -> int, t: Table, batchId: string,
                                       payouts: seq<Payout>, i: nat)
    requires i <= |payouts|
    ensures var r := Persist(repo, clock, t, batchId, payouts, i);
      && r.table.Keys == t.Keys + IdsOf(payouts, i, r.saved)
      && forall k | k in t && k !in IdsOf(payouts, i, r.saved) :: r.table[k] == t[k]
    decreases |payouts| - i
  {
    var r := Persist(repo, clock, t, batchId, payouts, i);
    if i < |payouts| {
      var p := Stamped(payouts, batchId, clock, i);
      if repo.saveFailure(p).None? {
        var w := SavePayout(t, p, None);
        PersistKeys(repo, clock, w.table, batchId, payouts, i + 1);
        IdsOfStep(payouts, i, r.saved);
      }
    }
  }

  /** Every saved payout's row carries the batch id and PENDING. */
  lemma {:induction false} PersistStamps(repo: Repo, clock: nat -> int, t: Table, batchId: string,
                                         payouts: seq<Payout>, i: nat)
    requires i <= |payouts|
    ensures var r := Persist(repo, clock, t, batchId, payouts, i);
      forall j | i <= j < r.saved ::
        && payouts[j].id in r.table
        && r.table[payouts[j].id].batchId == Nullable(batchId)
        && r.table[payouts[j].id].status == StatusPending
    decreases |payouts| - i
  {
    var r := Persist(repo, clock, t, batchId, payouts, i);
    if i < |payouts| {
      var p := Stamped(payouts, batchId, clock, i);
      if repo.saveFailure(p).None? {
        var w := SavePayout(t, p, None);
        PersistStamps(repo, clock, w.table, batchId, payouts, i + 1);
        PersistKeys(repo, clock, w.table, batchId, payouts, i + 1);
        var k := payouts[i].id;
        if k !in IdsOf(payouts, i + 1, r.saved) {
          assert r.table[k] == w.table[k] == EncodeRow(p);
        } else {
          var j' :| i + 1 <= j' < r.saved && payouts[j'].id == k;
        }
      }
    }
  }

  /** A schedule for n workers: every index below n, each exactly once. */
  predicate IsSchedule(order: seq<nat>, n: nat) {
    && IsPartialSchedule(order, n)
    && (forall j | 0 <= j < n :: j in order)
  }

  /** The workers, run in the order of `order`. */
  function FanOut(env: Env, t: Table, payouts: seq<Payout>, order: seq<nat>): (r: Processed)
    requires forall i | 0 <= i < |order| :: order[i] < |payouts|
    ensures r.table.Keys == t.Keys
    decreases |order|
  {
    if |order| == 0 then
      Processed(t, [])
    else
      var before := FanOut(env, t, payouts, order[..|order| - 1]);
      var last := ProcessSinglePayout(env, before.table, payouts[order[|order| - 1]]);
      Processed(last.table, before.effects + last.effects)
  }

  datatype BatchRun = BatchRun(error: Option<string>, table: Table, effects: seq<Effect>)

  /** ExecuteBatch: save every payout, stopping at the first failure; when all
      are saved, run every worker and return no error. */
  function ExecuteBatch(env: Env, clock: nat -> int, t: Table, batchId: string,
                        payouts: seq<Payout>, order: seq<nat>): (r: BatchRun)
    requires IsSchedule(order, |payouts|)
    // no error exactly when every save succeeded
    ensures r.error.None? <==> forall j | 0 <= j < |payouts| :: SaveAccepted(env.repo, clock, batchId, payouts, j)
    // a failed save aborts the batch before any gateway call or status write
    ensures r.error.Some? ==> forall i | 0 <= i < |r.effects| :: r.effects[i].Saved?
    // on success every payout has a row
    ensures r.error.None? ==> r.table.Keys == t.Keys + IdsOf(payouts, 0, |payouts|)
  {
    var persisted := Persist(env.repo, clock, t, batchId, payouts, 0);
    PersistKeys(env.repo, clock, t, batchId, payouts, 0);
    if persisted.failure.Some? then
      assert !SaveAccepted(env.repo, clock, batchId, payouts, persisted.saved);
      BatchRun(persisted.failure, persisted.table, persisted.effects)
    else
      var workers := FanOut(env, persisted.table, payouts, order);
      NoSavesInFanOut(env, persisted.table, payouts, order);
      BatchRun(None, workers.table, persisted.effects + workers.effects)
  }

  /** On a failed save the error names the first payout whose save failed, the
      payouts before it were saved as PENDING rows that remain, and nothing after it
      was attempted. */
  lemma ExecuteBatchAborts(env: Env, clock: nat -> int, t: Table, batchId: string,
                           payouts: seq<Payout>, order: seq<nat>)
    requires IsSchedule(order, |payouts|)
    requires ExecuteBatch(env, clock, t, batchId, payouts, order).error.Some?
    ensures var r := ExecuteBatch(env, clock, t, batchId, payouts, order);
      exists f | 0 <= f < |payouts| ::
        && (forall j | 0 <= j < f :: SaveAccepted(env.repo, clock, batchId, payouts, j))
        && !SaveAccepted(env.repo, clock, batchId, payouts, f)
        && r.error == Some(SaveErrorText(payouts[f].id,
                                         env.repo.saveFailure(Stamped(payouts, batchId, clock, f)).value))
        && |r.effects| == f + 1
        && (forall j | 0 <= j < |r.effects| :: r.effects[j] == Saved(Stamped(payouts, batchId, clock, j)))
        && (forall j | 0 <= j < f :: payouts[j].id in r.table && r.table[payouts[j].id].status == StatusPending)
  {
    PersistStamps(env.repo, clock, t, batchId, payouts, 0);
    var persisted := Persist(env.repo, clock, t, batchId, payouts, 0);
    var r := ExecuteBatch(env, clock, t, batchId, payouts, order);
    assert r.effects == persisted.effects && r.table == persisted.table;
    var f := persisted.saved;
    assert f < |payouts|;
  }

  /** When every save succeeds, the saves come first, in payout order, and no
      worker effect is a save. */
  lemma ExecuteBatchSavesFirst(env: Env, clock: nat -> int, t: Table, batchId: string,
                               payouts: seq<Payout>, order: seq<nat>)
    requires IsSchedule(order, |payouts|)
    requires ExecuteBatch(env, clock, t, batchId, payouts, order).error.None?
    ensures var r := ExecuteBatch(env, clock, t, batchId, payouts, order);
      && |r.effects| >= |payouts|
      && (forall j | 0 <= j < |payouts| :: r.effects[j] == Saved(Stamped(payouts, batchId, clock, j)))
      && (forall i | |payouts| <= i < |r.effects| :: !r.effects[i].Saved?)
  {
    var persisted := Persist(env.repo, clock, t, batchId, payouts, 0);
    NoSavesInFanOut(env, persisted.table, payouts, order);
  }

  lemma {:induction false} NoSavesInFanOut(env: Env, t: Table, payouts: seq<Payout>, order: seq<nat>)
    requires forall i | 0 <= i < |order| :: order[i] < |payouts|
    ensures forall i | 0 <= i < |FanOut(env, t, payouts, order).effects| ::
      !FanOut(env, t, payouts, order).effects[i].Saved?
    decreases |order|
  {
    if |order| > 0 {
      var prefix := order[..|order| - 1];
      NoSavesInFanOut(env, t, payouts, prefix);
      var before := FanOut(env, t, payouts, prefix);
      var last := ProcessSinglePayout(env, before.table, payouts[order[|order| - 1]]);
      NoSavesAppend(before.effects, last.effects);
    }
  }

  lemma NoSavesAppend(a: seq<Effect>, b: seq<Effect>)
    requires forall i | 0 <= i < |a| :: !a[i].Saved?
    requires forall i | 0 <= i < |b| :: !b[i].Saved?
    ensures forall i | 0 <= i < |a + b| :: !(a + b)[i].Saved?
  {
  }

  /** Entries of `order` are valid, pairwise different payout indices. */
  predicate IsPartialSchedule(order: seq<nat>, n: nat) {
    && (forall i | 0 <= i < |order| :: order[i] < n)
    && (forall i, j | 0 <= i < j < |order| :: order[i] != order[j])
  }

  /** Each worker touches only its own row, and that row ends as SettledRow of
      the row it found: a row ends settled exactly when its payout was scheduled. */
  lemma {:induction false} FanOutRow(env: Env, t: Table, payouts: seq<Payout>, order: seq<nat>, k: string)
    requires IsPartialSchedule(order, |payouts|)
    requires DistinctIds(payouts)
    requires k in t
    ensures var i := IndexOfId(payouts, k);
      FanOut(env, t, payouts, order).table[k]
        == if i < |payouts| && i in order then SettledRow(env, payouts[i], t[k]) else t[k]
    decreases |order|
  {
    if |order| > 0 {
      var prefix := order[..|order| - 1];
      var x := order[|order| - 1];
      assert IsPartialSchedule(prefix, |payouts|);
      FanOutRow(env, t, payouts, prefix, k);
      var i := IndexOfId(payouts, k);
      if payouts[x].id == k {
        IndexOfIdFinds(payouts, x);
        assert x !in prefix;
      } else {
        assert i < |payouts| ==> i != x;
        assert i in order <==> i in prefix;
      }
    }
  }

  /** Index of the first payout with id k (|payouts| when there is none). */
  function IndexOfId(payouts: seq<Payout>, k: string): (i: nat)
    ensures i <= |payouts|
    ensures i < |payouts| ==> payouts[i].id == k
    ensures forall j | 0 <= j < i :: payouts[j].id != k
  {
    if |payouts| == 0 then 0
    else if payouts[0].id == k then 0
    else 1 + IndexOfId(payouts[1..], k)
  }

  lemma IndexOfIdFinds(payouts: seq<Payout>, x: nat)
    requires x < |payouts| && DistinctIds(payouts)
    ensures IndexOfId(payouts, payouts[x].id) == x
  {
  }

  /** The final table does not depend on the order the workers ran in, as long as
      the payout ids are distinct. */
  lemma FanOutOrderIndependent(env: Env, t: Table, payouts: seq<Payout>, order1: seq<nat>, order2: seq<nat>)
    requires DistinctIds(payouts)
    requires IsSchedule(order1, |payouts|) && IsSchedule(order2, |payouts|)
    ensures FanOut(env, t, payouts, order1).table == FanOut(env, t, payouts, order2).table
  {
    var t1 := FanOut(env, t, payouts, order1).table;
    var t2 := FanOut(env, t, payouts, order2).table;
    forall k | k in t
      ensures t1[k] == t2[k]
    {
      FanOutSameRow(env, t, payouts, order1, order2, k);
    }
    assert t1.Keys == t2.Keys;
  }

  /** One row of the order-independence argument: both schedules settle it the same way. */
  lemma FanOutSameRow(env: Env, t: Table, payouts: seq<Payout>, order1: seq<nat>, order2: seq<nat>, k: string)
    requires DistinctIds(payouts)
    requires IsSchedule(order1, |payouts|) && IsSchedule(order2, |payouts|)
    requires k in t
    ensures FanOut(env, t, payouts, order1).table[k] == FanOut(env, t, payouts, order2).table[k]
  {
    FanOutRow(env, t, payouts, order1, k);
    FanOutRow(env, t, payouts, order2, k);
    var i := IndexOfId(payouts, k);
    assert i < |payouts| ==> i in order1 && i in order2;
  }

  /** Hence the whole batch's outcome does not depend on the schedule either. */
  lemma ExecuteBatchOrderIndependent(env: Env, clock: nat -> int, t: Table, batchId: string,
                                     payouts: seq<Payout>, order1: seq<nat>, order2: seq<nat>)
    requires DistinctIds(payouts)
    requires IsSchedule(order1, |payouts|) && IsSchedule(order2, |payouts|)
    ensures ExecuteBatch(env, clock, t, batchId, payouts, order1).error
         == ExecuteBatch(env, clock, t, batchId, payouts, order2).error
    ensures ExecuteBatch(env, clock, t, batchId, payouts, order1).table
         == ExecuteBatch(env, clock, t, batchId, payouts, order2).table
  {
    var persisted := Persist(env.repo, clock, t, batchId, payouts, 0);
    if persisted.failure.None? {
      FanOutOrderIndependent(env, persisted.table, payouts, order1, order2);
    }
  }

  /** Across the fan-out, a payout gets one terminal write if it was scheduled and
      none otherwise. */
  lemma {:induction false} FanOutTerminalWrites(env: Env, t: Table, payouts: seq<Payout>,
                                                order: seq<nat>, k: string)
    requires IsPartialSchedule(order, |payouts|)
    requires DistinctIds(payouts)
    ensures var i := IndexOfId(payouts, k);
      TerminalWrites(FanOut(env, t, payouts, order).effects, k)
        == if i < |payouts| && i in order then 1 else 0
    decreases |order|
  {
    if |order| > 0 {
      var prefix := order[..|order| - 1];
      var x := order[|order| - 1];
      assert IsPartialSchedule(prefix, |payouts|);
      FanOutTerminalWrites(env, t, payouts, prefix, k);
      var before := FanOut(env, t, payouts, prefix);
      var last := ProcessSinglePayout(env, before.table, payouts[x]);
      TerminalWritesAppend(before.effects, last.effects, k);
      WorkerWritesOneTerminal(env, before.table, payouts[x], k);
      var i := IndexOfId(payouts, k);
      if payouts[x].id == k {
        IndexOfIdFinds(payouts, x);
        assert x !in prefix;
      } else {
        assert i < |payouts| ==> i != x;
        assert i in order <==> i in prefix;
      }
    }
  }

  /** ExecuteBatch returns no error only after every payout was processed exactly
      once: each gets exactly one terminal status write. */
  lemma ExecuteBatchProcessesEachOnce(env: Env, clock: nat -> int, t: Table, batchId: string,
                                      payouts: seq<Payout>, order: seq<nat>, j: nat)
    requires DistinctIds(payouts)
    requires IsSchedule(order, |payouts|)
    requires j < |payouts|
    requires ExecuteBatch(env, clock, t, batchId, payouts, order).error.None?
    ensures TerminalWrites(ExecuteBatch(env, clock, t, batchId, payouts, order).effects, payouts[j].id) == 1
  {
    var persisted := Persist(env.repo, clock, t, batchId, payouts, 0);
    var workers := FanOut(env, persisted.table, payouts, order);
    var k := payouts[j].id;
    NoTerminalWritesWithoutStatusWrites(persisted.effects, k);
    TerminalWritesAppend(persisted.effects, workers.effects, k);
    FanOutTerminalWrites(env, persisted.table, payouts, order, k);
    IndexOfIdFinds(payouts, j);
  }

  /** After a successful ExecuteBatch each payout's row holds the batch id and
      the status of its terminal write, unless the database rejected that write;
      then it holds PENDING or PROCESSING. */
  lemma ExecuteBatchSettles(env: Env, clock: nat -> int, t: Table, batchId: string,
                            payouts: seq<Payout>, order: seq<nat>, j: nat)
    requires DistinctIds(payouts)
    requires IsSchedule(order, |payouts|)
    requires j < |payouts|
    requires ExecuteBatch(env, clock, t, batchId, payouts, order).error.None?
    ensures var r := ExecuteBatch(env, clock, t, batchId, payouts, order);
      var p := payouts[j];
      var u := Settlement(Drive(env.rail, p).verdict);
      && p.id in r.table
      && StringOf(r.table[p.id].batchId) == batchId
      && (env.repo.updateFailure(p.id, u).None? ==>
            IsTerminal(r.table[p.id].status)
            && r.table[p.id].status == u.status
            && StringOf(r.table[p.id].errorMessage) == u.message)
      && r.table[p.id].status in {StatusPending, StatusProcessing, u.status}
  {
    var persisted := Persist(env.repo, clock, t, batchId, payouts, 0);
    PersistKeys(env.repo, clock, t, batchId, payouts, 0);
    PersistStamps(env.repo, clock, t, batchId, payouts, 0);
    var k := payouts[j].id;
    var row := persisted.table[k];
    assert row.batchId == Nullable(batchId) && row.status == StatusPending;
    FanOutRow(env, persisted.table, payouts, order, k);
    IndexOfIdFinds(payouts, j);
    var settled := SettledRow(env, payouts[j], row);
    assert ExecuteBatch(env, clock, t, batchId, payouts, order).table[k] == settled;
    assert settled.batchId == row.batchId;
  }
}
