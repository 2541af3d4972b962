/** Steps that leave the stored run alone: what workers and the broker do between two saves. */
module SchedulerWorkers {
  import opened Ids
  import opened Run
  import opened Broker
  import opened Channel
  import opened Scheduler
  import opened SchedulerInv

  // ------------------------------------------------------------------
  // Who holds what

  /** A worker changes what it does, or appears, without letting go of a needed message. */
  lemma NoOrphanUpdate(id: Text, tasks: map<Text, TaskRun>, flight: map<Text, nat>, workers: map<WorkerKey, Phase>,
                       k: WorkerKey, q: Phase)
    requires NoOrphan(id, tasks, flight, workers)
    requires k in workers ==> forall a :: a in flight && Needed(id, tasks, a)
                                          && Holds(workers[k], Ticket(a, flight[a])) ==>
               Holds(q, Ticket(a, flight[a]))
    ensures NoOrphan(id, tasks, flight, workers[k := q])
  {
    forall a | a in flight && Needed(id, tasks, a) ensures Held(workers[k := q], Ticket(a, flight[a])) {
      var h :| h in workers && Holds(workers[h], Ticket(a, flight[a]));
      assert Holds(workers[k := q][h], Ticket(a, flight[a]));
    }
  }

  /** A worker leaves after giving its delivery back. */
  lemma NoOrphanRemove(id: Text, tasks: map<Text, TaskRun>, channel: Channel, workers: map<WorkerKey, Phase>,
                       k: WorkerKey)
    requires NoOrphan(id, tasks, channel.flight, workers) && k in workers
    ensures workers[k].Receiving? ==> NoOrphan(id, tasks, channel.flight, workers - {k})
    ensures !workers[k].Receiving? ==> NoOrphan(id, tasks, Nacked(channel, workers[k].d).flight, workers - {k})
  {
    var flight := if workers[k].Receiving? then channel.flight else Nacked(channel, workers[k].d).flight;
    forall a | a in flight && Needed(id, tasks, a) ensures Held(workers - {k}, Ticket(a, flight[a])) {
      var h :| h in workers && Holds(workers[h], Ticket(a, channel.flight[a]));
      assert h != k;
      assert Holds((workers - {k})[h], Ticket(a, flight[a]));
    }
  }

  lemma NoOrphanShrinks(id: Text, tasks: map<Text, TaskRun>, channel: Channel, d: Ticket,
                        workers: map<WorkerKey, Phase>)
    requires NoOrphan(id, tasks, channel.flight, workers)
    ensures NoOrphan(id, tasks, Nacked(channel, d).flight, workers)
    ensures NoOrphan(id, tasks, Acked(channel, d).flight, workers)
  {
  }

  lemma NoOrphanTaken(id: Text, tasks: map<Text, TaskRun>, channel: Channel, a: Text, workers: map<WorkerKey, Phase>,
                      k: WorkerKey)
    requires NoOrphan(id, tasks, channel.flight, workers) && k in workers && workers[k].Receiving?
             && a !in channel.flight
    ensures NoOrphan(id, tasks, Taken(channel, a).flight, workers[k := Holding(Ticket(a, Count(channel, a) + 1))])
  {
    var d := Ticket(a, Count(channel, a) + 1);
    NoOrphanUpdate(id, tasks, channel.flight, workers, k, Holding(d));
    assert Holds(workers[k := Holding(d)][k], d);
  }

  // ------------------------------------------------------------------
  // Worker steps

  lemma TakeChannel(id: Text, tasks: map<Text, TaskRun>, channel: Channel, a: Text)
    requires ChannelInv(id, tasks, channel) && Deliverable(channel, a)
    ensures ChannelInv(id, tasks, Taken(channel, a))
  {
    hide MessagesOk, AckedPast;
  }

  lemma ReceiveWorld(run: RunState, namespace: Text, channel: Channel, pool: Pool, issued: seq<Text>, k: WorkerKey,
                     a: Text)
    requires World(run, namespace, channel, pool, issued)
    requires k in pool.workers && pool.workers[k].Receiving? && Deliverable(channel, a)
    ensures World(run, namespace, Taken(channel, a),
                  pool.(workers := pool.workers[k := Holding(Ticket(a, Count(channel, a) + 1))]), issued)
  {
    hide ChannelInv, IssuedOk, ResultsOk, JobOk, Needed, NoOrphan;
    NoOrphanTaken(run.id, run.tasks, channel, a, pool.workers, k);
    TakeChannel(run.id, run.tasks, channel, a);
  }

  lemma SendWorld(run: RunState, namespace: Text, channel: Channel, pool: Pool, issued: seq<Text>, k: WorkerKey)
    requires World(run, namespace, channel, pool, issued) && k in pool.workers && pool.workers[k].Holding?
    ensures var d := pool.workers[k].d;
            World(run, namespace, channel,
                  pool.(workers := pool.workers[k := Claiming(d)], claims := pool.claims + multiset{Claim(k, d)}),
                  issued)
  {
    hide ChannelInv, IssuedOk, ResultsOk, Needed, NoOrphan;
    var d := pool.workers[k].d;
    assert PhaseOk(run.id, run.tasks, namespace, channel.bodies, k, pool.workers[k]);
    NoOrphanUpdate(run.id, run.tasks, channel.flight, pool.workers, k, Claiming(d));
  }

  lemma FinishTaskWorld(run: RunState, namespace: Text, channel: Channel, pool: Pool, issued: seq<Text>, k: WorkerKey,
                        output: Text, error: Option<TaskError>)
    requires World(run, namespace, channel, pool, issued) && k in pool.workers && pool.workers[k].Working?
    ensures var p := pool.workers[k];
            World(run, namespace, channel,
                  pool.(workers := pool.workers[k := Receiving],
                        results := pool.results + multiset{TaskResult(k, p.job, output, error, p.d)}), issued)
  {
    hide ChannelInv, IssuedOk, ClaimsOk, JobOk, Needed, NoOrphan;
    assert PhaseOk(run.id, run.tasks, namespace, channel.bodies, k, pool.workers[k]);
    NoOrphanUpdate(run.id, run.tasks, channel.flight, pool.workers, k, Receiving);
  }

  lemma NackChannel(id: Text, tasks: map<Text, TaskRun>, channel: Channel, d: Ticket)
    requires ChannelInv(id, tasks, channel)
    ensures ChannelInv(id, tasks, Nacked(channel, d))
  {
  }

  lemma AbortWorld(run: RunState, namespace: Text, channel: Channel, pool: Pool, issued: seq<Text>, k: WorkerKey)
    requires World(run, namespace, channel, pool, issued) && k in pool.workers
    ensures World(run, namespace, if pool.workers[k].Receiving? then channel else Nacked(channel, pool.workers[k].d),
                  pool.(workers := pool.workers - {k}), issued)
  {
    NoOrphanRemove(run.id, run.tasks, channel, pool.workers, k);
    if !pool.workers[k].Receiving? {
      NackChannel(run.id, run.tasks, channel, pool.workers[k].d);
    }
  }

  /** No worker step touches the run, the store, the caches or the messages that exist. */
  lemma WorkerStepInv(s: Sys, e: Event, k: WorkerKey)
    requires Inv(s) && !s.mode.Idle? && k in s.pool.workers
    ensures Inv(WorkerStep(s, e, k)) && WorkerStep(s, e, k).stored == s.stored
  {
    hide World, ModeOk, StoredOk;
    var phase := s.pool.workers[k];
    match e
    case Receive(_, a) =>
      if phase.Receiving? && Deliverable(s.channel, a) {
        ReceiveWorld(s.stored, s.cache.namespace, s.channel, s.pool, s.issued, k, a);
      }
    case SendClaim(_) =>
      if phase.Holding? { SendWorld(s.stored, s.cache.namespace, s.channel, s.pool, s.issued, k); }
    case FinishTask(_, output, error) =>
      if phase.Working? { FinishTaskWorld(s.stored, s.cache.namespace, s.channel, s.pool, s.issued, k, output, error); }
    case _ => AbortWorld(s.stored, s.cache.namespace, s.channel, s.pool, s.issued, k);
  }

  // ------------------------------------------------------------------
  // What the scheduler does to channel and workers

  /** Answering a claim whose message is settled, or no longer needed, loses nothing. */
  lemma RespondWorld(run: RunState, namespace: Text, channel: Channel, pool: Pool, issued: seq<Text>, k: WorkerKey,
                     d: Ticket, phase: Phase)
    requires World(run, namespace, channel, pool, issued)
    requires !Live(channel, d) || !Needed(run.id, run.tasks, d.id)
    requires PhaseOk(run.id, run.tasks, namespace, channel.bodies, k, phase)
    ensures World(run, namespace, channel, Respond(pool, k, d, phase), issued)
  {
    hide ChannelInv, IssuedOk, ResultsOk, ClaimsOk, PhaseOk, Needed, NoOrphan;
    if k in pool.workers && pool.workers[k] == Claiming(d) {
      NoOrphanUpdate(run.id, run.tasks, channel.flight, pool.workers, k, phase);
    }
  }

  lemma NackWorld(run: RunState, namespace: Text, channel: Channel, pool: Pool, issued: seq<Text>, d: Ticket)
    requires World(run, namespace, channel, pool, issued)
    ensures World(run, namespace, Nacked(channel, d), pool, issued)
  {
    NackChannel(run.id, run.tasks, channel, d);
    NoOrphanShrinks(run.id, run.tasks, channel, d, pool.workers);
  }

  lemma AckChannel(id: Text, tasks: map<Text, TaskRun>, channel: Channel, d: Ticket)
    requires ChannelInv(id, tasks, channel) && (Past(id, tasks, d.id) || !Utf8(d.id))
    ensures ChannelInv(id, tasks, Acked(channel, d))
  {
    hide MessagesOk, Past, Utf8;
  }

  /** Acknowledging a message the run has moved past. */
  lemma AckWorld(run: RunState, namespace: Text, channel: Channel, pool: Pool, issued: seq<Text>, d: Ticket)
    requires World(run, namespace, channel, pool, issued) && Past(run.id, run.tasks, d.id)
    ensures World(run, namespace, Acked(channel, d), pool, issued)
  {
    hide ChannelInv, IssuedOk, ResultsOk, PhaseOk, ClaimsOk, KeysOk, NoOrphan, Past;
    AckChannel(run.id, run.tasks, channel, d);
    NoOrphanShrinks(run.id, run.tasks, channel, d, pool.workers);
  }

  /** Acknowledging a message that cannot be read. */
  lemma AckUnreadable(run: RunState, namespace: Text, channel: Channel, pool: Pool, issued: seq<Text>, d: Ticket)
    requires World(run, namespace, channel, pool, issued) && !Utf8(d.id)
    ensures World(run, namespace, Acked(channel, d), pool, issued) && !Live(Acked(channel, d), d)
  {
    hide ChannelInv, IssuedOk, ResultsOk, PhaseOk, ClaimsOk, KeysOk, NoOrphan, Utf8;
    AckChannel(run.id, run.tasks, channel, d);
    NoOrphanShrinks(run.id, run.tasks, channel, d, pool.workers);
  }

  lemma PostWorld(run: RunState, namespace: Text, channel: Channel, pool: Pool, issued: seq<Text>, a: Text,
                  body: Payload)
    requires World(run, namespace, channel, pool, issued)
    requires Bounded(run.id, run.tasks, a) && BodyOk(run.id, a, body)
    ensures World(run, namespace, Posted(channel, a, body), pool, issued)
  {
    hide IssuedOk, ResultsOk, KeysOk, NoOrphan, JobOk, AckedPast, Bounded, BodyOk;
  }

  lemma RespawnWorld(run: RunState, namespace: Text, channel: Channel, pool: Pool, issued: seq<Text>, slot: nat)
    requires World(run, namespace, channel, pool, issued) && slot in pool.generations
    ensures World(run, namespace, channel, Respawn(pool, slot), issued)
  {
    hide ChannelInv, IssuedOk, ResultsOk, ClaimsOk, Needed, NoOrphan;
    var k := WorkerKey(slot, pool.generations[slot] + 1);
    assert k !in pool.workers;
    NoOrphanUpdate(run.id, run.tasks, channel.flight, pool.workers, k, Receiving);
  }

  lemma {:induction false} ReplaceAllWorld(run: RunState, namespace: Text, channel: Channel, pool: Pool,
                                           issued: seq<Text>, recoveries: seq<Recovery>)
    requires World(run, namespace, channel, pool, issued)
    ensures World(run, namespace, channel, ReplaceAll(pool, namespace, run.id, recoveries), issued)
    decreases |recoveries|
  {
    if recoveries != [] {
      if exists slot: nat :: Runs(pool, namespace, run.id, recoveries[0].workerId, slot) {
        var slot: nat :| Runs(pool, namespace, run.id, recoveries[0].workerId, slot)
          && Replace(pool, namespace, run.id, recoveries[0].workerId) == Respawn(pool, slot);
        RespawnWorld(run, namespace, channel, pool, issued, slot);
      }
      ReplaceAllWorld(run, namespace, channel, Replace(pool, namespace, run.id, recoveries[0].workerId), issued,
                      recoveries[1..]);
    }
  }

  lemma {:induction false} FirstWorkersOk(count: nat)
    ensures var pool := FirstWorkers(count);
            && (forall slot :: slot in pool.generations <==> 1 <= slot <= count)
            && KeysOk(pool.generations, pool.workers)
            && (forall k :: k in pool.workers ==> pool.workers[k].Receiving?)
            && pool.claims == multiset{} && pool.results == multiset{}
  {
    if count > 0 { FirstWorkersOk(count - 1); }
  }

  /** A name belongs to one slot at most, so the replaced worker is the one the program finds. */
  lemma ReplacedSlotUnique(pool: Pool, namespace: Text, runId: Text, workerId: Text, s1: nat, s2: nat)
    requires Runs(pool, namespace, runId, workerId, s1) && Runs(pool, namespace, runId, workerId, s2)
    ensures s1 == s2
  {
    WorkerIdInjective(namespace, runId, s1, pool.generations[s1], s2, pool.generations[s2]);
  }

  /** With nobody at work, every needed message that exists can be received. */
  lemma EmptyPoolWorld(run: RunState, namespace: Text, other: Text, channel: Channel, pool: Pool, issued: seq<Text>)
    requires World(run, namespace, channel, pool, issued) && pool.workers == map[]
    ensures World(run, other, channel, EMPTY_POOL, issued)
  {
    forall a | a in channel.flight ensures !Needed(run.id, run.tasks, a) {
      assert !Held(pool.workers, Ticket(a, channel.flight[a]));
    }
  }

  lemma FirstWorkersWorld(run: RunState, namespace: Text, channel: Channel, issued: seq<Text>, count: nat)
    requires World(run, namespace, channel, EMPTY_POOL, issued)
    ensures World(run, namespace, channel, FirstWorkers(count), issued)
  {
    FirstWorkersOk(count);
    forall a | a in channel.flight ensures !Needed(run.id, run.tasks, a) {
      assert !Held(EMPTY_POOL.workers, Ticket(a, channel.flight[a]));
    }
  }

  lemma EmptyChannelWorld(run: RunState, namespace: Text, other: Text, channel: Channel, pool: Pool, issued: seq<Text>)
    requires World(run, namespace, channel, pool, issued)
    ensures World(run, other, EMPTY_CHANNEL, EMPTY_POOL, issued)
  {
  }
}
