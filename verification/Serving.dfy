/**
  The accept loop, the connection slots and the bounded queue to the single
  worker, as a machine whose steps interleave freely.  A connection task sends
  one request and waits for its answer before it reads the next.
 */
module Serving {
  import opened Wrappers
  import opened Contracts

  const MAX_CONNECTIONS: nat := 32
  const REQUEST_BACKLOG: nat := 64

  datatype Job = Job(peer: nat, request: BrokerRequest)

  /** What a connection task is doing: anything but a dispatch, blocked on a full queue, or waiting. */
  datatype Task = Free | Sending(request: BrokerRequest) | Waiting(request: BrokerRequest)

  /**
    `free` and `admitting` are the semaphore's permits and the one the accept
    loop may hold; `live` the connection tasks; `sent` and `handled` every job in
    the order it entered the queue and the order the worker finished it.
   */
  datatype Server = Server(
    free: nat,
    admitting: bool,
    live: map<nat, Task>,
    queue: seq<Job>,
    running: Option<Job>,
    sent: seq<Job>,
    handled: seq<Job>,
    stopped: bool,
    ended: bool)

  /** The kinds of an accept error that `serve` tells apart. */
  datatype AcceptError = ConnectionAborted | Interrupted | OtherError

  /** The failure aborted one connection rather than the endpoint. */
  predicate Transient(error: AcceptError) {
    error.ConnectionAborted? || error.Interrupted?
  }

  datatype Action =
    | TakeSlot
    | Accepted(peer: nat)
    | AcceptFailed(error: AcceptError)
    | Dispatch(peer: nat, request: BrokerRequest)
    | Send(peer: nat)
    | Receive
    | Respond
    | Leave(peer: nat)
    | StopWorker
    | NoticeStop

  function Start(): Server {
    Server(MAX_CONNECTIONS, false, map[], [], None, [], [], false, false)
  }

  /** A dispatch whose job is gone is answered with an internal error, which frees its task. */
  function Released(live: map<nat, Task>): map<nat, Task> {
    map p | p in live :: Free
  }

  function Next(s: Server, action: Action): Server {
    match action
    case TakeSlot =>
      if s.ended || s.admitting || s.free == 0 then s
      else s.(free := s.free - 1, admitting := true)
    case Accepted(p) =>
      if !s.admitting || p in s.live then s
      else s.(admitting := false, live := s.live[p := Free])
    case AcceptFailed(error) =>
      if !s.admitting then s
      else s.(admitting := false, free := s.free + 1, ended := s.ended || !Transient(error))
    case Dispatch(p, request) =>
      if p !in s.live || s.live[p] != Free || s.stopped then s
      else s.(live := s.live[p := Sending(request)])
    case Send(p) =>
      if p !in s.live || !s.live[p].Sending? || s.stopped || |s.queue| >= REQUEST_BACKLOG then s
      else
        var job := Job(p, s.live[p].request);
        s.(live := s.live[p := Waiting(job.request)], queue := s.queue + [job], sent := s.sent + [job])
    case Receive =>
      if s.stopped || s.running.Some? || s.queue == [] then s
      else s.(running := Some(s.queue[0]), queue := s.queue[1..])
    case Respond =>
      if s.stopped || s.running.None? then s
      else
        var job := s.running.value;
        s.(running := None, handled := s.handled + [job],
           live := if job.peer in s.live then s.live[job.peer := Free] else s.live)
    case Leave(p) =>
      if p !in s.live || s.live[p] != Free then s
      else s.(live := s.live - {p}, free := s.free + 1)
    case StopWorker =>
      s.(stopped := true, running := None, queue := [], live := Released(s.live))
    case NoticeStop =>
      if !s.stopped || s.ended then s
      else s.(ended := true, admitting := false, free := s.free + if s.admitting then 1 else 0)
  }

  function Run(actions: seq<Action>): Server {
    if actions == [] then Start()
    else Next(Run(actions[..|actions| - 1]), actions[|actions| - 1])
  }

  /** The jobs the worker has not finished, oldest first. */
  function Outstanding(s: Server): seq<Job> {
    (if s.running.Some? then [s.running.value] else []) + s.queue
  }

  /** Every unfinished job is its own connection's one outstanding request. */
  ghost predicate OneEach(s: Server) {
    var jobs := Outstanding(s);
    && (forall i :: 0 <= i < |jobs| ==> jobs[i].peer in s.live && s.live[jobs[i].peer] == Waiting(jobs[i].request))
    && (forall i, j :: 0 <= i < j < |jobs| ==> jobs[i].peer != jobs[j].peer)
  }

  ghost predicate SlotsAddUp(s: Server) {
    s.free + (if s.admitting then 1 else 0) + |s.live| == MAX_CONNECTIONS
  }

  /** Requests and answers change what tasks do, not which there are. */
  lemma ExchangeKeepsPeers(s: Server, action: Action)
    requires !action.Accepted? && !action.Leave?
    ensures Next(s, action).live.Keys == s.live.Keys
  {
  }

  lemma ArrivalKeepsSlots(s: Server, p: nat)
    requires SlotsAddUp(s)
    ensures SlotsAddUp(Next(s, Accepted(p)))
  {
    if s.admitting && p !in s.live {
      assert Next(s, Accepted(p)).live.Keys == s.live.Keys + {p};
      assert |Next(s, Accepted(p)).live.Keys| == |s.live.Keys| + 1;
    }
  }

  lemma DepartureKeepsSlots(s: Server, p: nat)
    requires SlotsAddUp(s)
    ensures SlotsAddUp(Next(s, Leave(p)))
  {
    if p in s.live && s.live[p] == Free {
      assert s.live.Keys == Next(s, Leave(p)).live.Keys + {p};
      assert |s.live.Keys| == |Next(s, Leave(p)).live.Keys| + 1;
    }
  }

  lemma ExchangeKeepsSlots(s: Server, action: Action)
    requires SlotsAddUp(s) && !action.Accepted? && !action.Leave?
    ensures SlotsAddUp(Next(s, action))
  {
    ExchangeKeepsPeers(s, action);
    assert |s.live| == |s.live.Keys| && |Next(s, action).live| == |Next(s, action).live.Keys|;
  }

  lemma NextKeepsSlots(s: Server, action: Action)
    requires SlotsAddUp(s)
    ensures SlotsAddUp(Next(s, action))
  {
    match action
    case Accepted(p) => ArrivalKeepsSlots(s, p);
    case Leave(p) => DepartureKeepsSlots(s, p);
    case _ => ExchangeKeepsSlots(s, action);
  }

  lemma SendKeepsOneEach(s: Server, p: nat)
    requires OneEach(s)
    ensures OneEach(Next(s, Send(p)))
  {
    var s' := Next(s, Send(p));
    if s' != s {
      assert Outstanding(s') == Outstanding(s) + [Job(p, s.live[p].request)];
    }
  }

  lemma RespondKeepsOneEach(s: Server)
    requires OneEach(s)
    ensures OneEach(Next(s, Respond))
  {
    var s', jobs := Next(s, Respond), Outstanding(s);
    if s' != s {
      var left := Outstanding(s');
      assert jobs == [s.running.value] + left;
      forall i | 0 <= i < |left|
        ensures left[i].peer in s'.live && s'.live[left[i].peer] == Waiting(left[i].request)
      {
        assert left[i] == jobs[i + 1] && jobs[0].peer != jobs[i + 1].peer;
      }
      forall i, j | 0 <= i < j < |left|
        ensures left[i].peer != left[j].peer
      {
        assert jobs[i + 1].peer != jobs[j + 1].peer;
      }
    }
  }

  /** The remaining steps leave the unfinished jobs, or drop them all. */
  lemma OthersKeepOneEach(s: Server, action: Action)
    requires OneEach(s) && !action.Send? && !action.Respond?
    ensures OneEach(Next(s, action))
  {
    var s' := Next(s, action);
    if action.StopWorker? {
      assert Outstanding(s') == [];
    } else {
      assert Outstanding(s') == Outstanding(s);
      assert forall p :: p in s.live && s.live[p].Waiting? ==> p in s'.live && s'.live[p] == s.live[p];
    }
  }

  lemma NextKeepsOneEach(s: Server, action: Action)
    requires OneEach(s)
    ensures OneEach(Next(s, action))
  {
    match action
    case Send(p) => SendKeepsOneEach(s, p);
    case Respond => RespondKeepsOneEach(s);
    case _ => OthersKeepOneEach(s, action);
  }

  lemma {:induction false} Always(actions: seq<Action>)
    ensures SlotsAddUp(Run(actions)) && OneEach(Run(actions))
  {
    if actions != [] {
      var init, last := actions[..|actions| - 1], actions[|actions| - 1];
      Always(init);
      NextKeepsSlots(Run(init), last);
      NextKeepsOneEach(Run(init), last);
    }
  }

  /** Under every interleaving, free slots, the pending one and the live connections total 32. */
  lemma {:induction false} SlotsConserved(actions: seq<Action>)
    ensures var s := Run(actions);
            s.free + (if s.admitting then 1 else 0) + |s.live| == MAX_CONNECTIONS
  {
    Always(actions);
  }

  /** Jobs of distinct live connections are at most as many as the connections. */
  lemma {:induction false} NoMoreJobsThanPeers(jobs: seq<Job>, peers: set<nat>)
    requires forall i :: 0 <= i < |jobs| ==> jobs[i].peer in peers
    requires forall i, j :: 0 <= i < j < |jobs| ==> jobs[i].peer != jobs[j].peer
    ensures |jobs| <= |peers|
  {
    if jobs != [] {
      var init, last := jobs[..|jobs| - 1], jobs[|jobs| - 1];
      NoMoreJobsThanPeers(init, peers - {last.peer});
    }
  }

  /**
    The queue never fills: at most one unfinished job per connection slot, half of
    what the queue holds.  So no dispatch is ever blocked on the queue itself: a
    task that wants to send always can.
   */
  lemma {:induction false} BacklogNeverFills(actions: seq<Action>)
    ensures |Outstanding(Run(actions))| <= MAX_CONNECTIONS < REQUEST_BACKLOG
    ensures forall p :: p in Run(actions).live && Run(actions).live[p].Sending? && !Run(actions).stopped ==>
              Run(actions + [Send(p)]).live[p] == Waiting(Run(actions).live[p].request)
  {
    var s := Run(actions);
    Always(actions);
    NoMoreJobsThanPeers(Outstanding(s), s.live.Keys);
    forall p | p in s.live && s.live[p].Sending? && !s.stopped
      ensures Run(actions + [Send(p)]).live[p] == Waiting(s.live[p].request)
    {
      assert (actions + [Send(p)])[..|actions|] == actions;
    }
  }

  ghost predicate InOrder(s: Server) {
    && (!s.stopped ==> s.handled + Outstanding(s) == s.sent)
    && s.handled <= s.sent
  }

  lemma SendKeepsOrder(s: Server, p: nat)
    requires InOrder(s)
    ensures InOrder(Next(s, Send(p)))
  {
    if Next(s, Send(p)) != s {
      assert Outstanding(Next(s, Send(p))) == Outstanding(s) + [Job(p, s.live[p].request)];
    }
  }

  lemma ReceiveKeepsOrder(s: Server)
    requires InOrder(s)
    ensures InOrder(Next(s, Receive))
  {
    assert Outstanding(Next(s, Receive)) == Outstanding(s);
  }

  lemma RespondKeepsOrder(s: Server)
    requires InOrder(s)
    ensures InOrder(Next(s, Respond))
  {
    var s' := Next(s, Respond);
    if s' != s {
      assert s.handled + Outstanding(s) == s'.handled + Outstanding(s');
    }
  }

  lemma NextKeepsOrder(s: Server, action: Action)
    requires InOrder(s)
    ensures InOrder(Next(s, action))
  {
    match action
    case Send(p) => SendKeepsOrder(s, p);
    case Receive => ReceiveKeepsOrder(s);
    case Respond => RespondKeepsOrder(s);
    case _ =>
  }

  /**
    The worker is first in, first out and loses nothing: until it stops, what it
    has handled and what is left are together what was sent, in that order; what
    it handled before it stopped is the beginning of it.
   */
  lemma {:induction false} FirstInFirstOut(actions: seq<Action>)
    ensures !Run(actions).stopped ==> Run(actions).handled + Outstanding(Run(actions)) == Run(actions).sent
    ensures Run(actions).handled <= Run(actions).sent
  {
    if actions != [] {
      FirstInFirstOut(actions[..|actions| - 1]);
      NextKeepsOrder(Run(actions[..|actions| - 1]), actions[|actions| - 1]);
    }
  }

  // ----- when the accept loop ends ----------------------------------------------------------

  /** The step is one of the two that end the loop. */
  predicate Ends(s: Server, action: Action) {
    (action == AcceptFailed(OtherError) && s.admitting) || (action == NoticeStop && s.stopped)
  }

  predicate EndsAt(actions: seq<Action>, k: nat)
    requires k < |actions|
  {
    Ends(Run(actions[..k]), actions[k])
  }

  lemma NextEnds(s: Server, action: Action)
    ensures Next(s, action).ended <==> s.ended || Ends(s, action)
    ensures Next(s, action).stopped <==> s.stopped || action == StopWorker
  {
  }

  /** The worker has stopped exactly when it was stopped. */
  lemma {:induction false} StoppedExactly(actions: seq<Action>)
    ensures Run(actions).stopped <==> StopWorker in actions
  {
    if actions != [] {
      var init, last := actions[..|actions| - 1], actions[|actions| - 1];
      StoppedExactly(init);
      NextEnds(Run(init), last);
      assert Run(actions) == Next(Run(init), last);
      assert actions == init + [last];
    }
  }

  lemma EndsAtInPrefix(actions: seq<Action>, n: nat, k: nat)
    requires k < n <= |actions|
    ensures EndsAt(actions[..n], k) == EndsAt(actions, k)
  {
    assert actions[..n][..k] == actions[..k];
  }

  /**
    The loop has ended exactly when it took in an accept error other than an aborted
    or interrupted connection, or noticed that the worker had stopped.
   */
  lemma {:induction false} EndedExactly(actions: seq<Action>)
    ensures Run(actions).ended <==> exists k :: 0 <= k < |actions| && EndsAt(actions, k)
    ensures Run(actions).stopped <==> StopWorker in actions
  {
    StoppedExactly(actions);
    if actions != [] {
      var n := |actions| - 1;
      EndedExactly(actions[..n]);
      NextEnds(Run(actions[..n]), actions[n]);
      assert Run(actions).ended <==> Run(actions[..n]).ended || EndsAt(actions, n);
      forall k | 0 <= k < n
        ensures EndsAt(actions[..n], k) == EndsAt(actions, k)
      {
        EndsAtInPrefix(actions, n, k);
      }
    }
  }

  // ----- what is sent is handled --------------------------------------------------------------

  /** The actions, one after the other. */
  lemma {:induction false} RunOn(actions: seq<Action>, action: Action)
    ensures Run(actions + [action]) == Next(Run(actions), action)
  {
    assert (actions + [action])[..|actions|] == actions;
  }

  /** A free slot lets a new peer in. */
  lemma FreeSlotAdmits(actions: seq<Action>, p: nat)
    requires var s := Run(actions); s.free > 0 && !s.admitting && !s.ended && p !in s.live
    ensures var s' := Run(actions + [TakeSlot] + [Accepted(p)]);
            && p in s'.live && s'.live[p] == Free && s'.free == Run(actions).free - 1
            && forall q :: q in Run(actions).live ==> q in s'.live && s'.live[q] == Run(actions).live[q]
  {
    RunOn(actions, TakeSlot);
    RunOn(actions + [TakeSlot], Accepted(p));
  }

  /** A peer's request reaches the queue. */
  lemma DispatchIsQueued(actions: seq<Action>, p: nat, request: BrokerRequest)
    requires var s := Run(actions); p in s.live && s.live[p] == Free && !s.stopped
    ensures var s' := Run(actions + [Dispatch(p, request)] + [Send(p)]);
            && s'.sent == Run(actions).sent + [Job(p, request)]
            && p in s'.live && s'.live[p] == Waiting(request)
            && Outstanding(s') == Outstanding(Run(actions)) + [Job(p, request)]
  {
    var s := Run(actions);
    RunOn(actions, Dispatch(p, request));
    RunOn(actions + [Dispatch(p, request)], Send(p));
    var ready := Run(actions + [Dispatch(p, request)]);
    Always(actions + [Dispatch(p, request)]);
    NoMoreJobsThanPeers(Outstanding(ready), ready.live.Keys);
    assert |ready.live.Keys| == |ready.live|;
  }

  /** What the worker does when it is left to work: one round a job. */
  function Rounds(n: nat): seq<Action> {
    if n == 0 then [] else Rounds(n - 1) + [Receive] + [Respond]
  }

  /** One round finishes the oldest job and frees the task that waits for it. */
  lemma RoundHandlesOldest(s: Server)
    requires !s.stopped && Outstanding(s) != [] && OneEach(s)
    ensures var (s', job) := (Next(Next(s, Receive), Respond), Outstanding(s)[0]);
            && !s'.stopped && s'.sent == s.sent && s'.handled == s.handled + [job]
            && Outstanding(s') == Outstanding(s)[1..]
            && job.peer in s'.live && s'.live[job.peer] == Free
  {
    var busy := Next(s, Receive);
    assert busy.live == s.live && busy.running == Some(Outstanding(s)[0]) && busy.queue == Outstanding(s)[1..];
    assert Outstanding(s)[0].peer in s.live;
  }

  /** Where the worker is after some rounds: so many of the oldest jobs are handled. */
  predicate Handled(s: Server, s': Server, n: nat)
    requires n <= |Outstanding(s)|
  {
    && !s'.stopped && s'.sent == s.sent
    && s'.handled == s.handled + Outstanding(s)[..n] && Outstanding(s') == Outstanding(s)[n..]
  }

  lemma RoundHandlesNext(s: Server, s': Server, n: nat)
    requires n < |Outstanding(s)| && Handled(s, s', n) && OneEach(s')
    ensures Handled(s, Next(Next(s', Receive), Respond), n + 1)
  {
    RoundHandlesOldest(s');
    assert Outstanding(s)[..n + 1] == Outstanding(s)[..n] + [Outstanding(s')[0]];
  }

  lemma {:induction false} RoundsHandle(actions: seq<Action>, n: nat)
    requires !Run(actions).stopped && n <= |Outstanding(Run(actions))|
    ensures Handled(Run(actions), Run(actions + Rounds(n)), n)
  {
    if n == 0 {
      assert actions + Rounds(0) == actions;
    } else {
      var earlier := Run(actions + Rounds(n - 1));
      RoundsHandle(actions, n - 1);
      OneMoreRound(actions, n - 1);
      assert OneEach(earlier) by {
        Always(actions + Rounds(n - 1));
      }
      RoundHandlesNext(Run(actions), earlier, n - 1);
    }
  }

  /** Left to work, the worker handles everything that was sent, each job in its turn. */
  lemma RoundsHandleAll(actions: seq<Action>)
    requires !Run(actions).stopped
    ensures var (s, s') := (Run(actions), Run(actions + Rounds(|Outstanding(Run(actions))|)));
            s'.handled == s'.sent == s.sent && Outstanding(s') == []
  {
    RoundsHandle(actions, |Outstanding(Run(actions))|);
    FirstInFirstOut(actions);
  }

  lemma OneMoreRound(actions: seq<Action>, n: nat)
    ensures Run(actions + Rounds(n + 1)) == Next(Next(Run(actions + Rounds(n)), Receive), Respond)
  {
    var earlier := actions + Rounds(n);
    RunOn(earlier, Receive);
    RunOn(earlier + [Receive], Respond);
    assert actions + Rounds(n + 1) == earlier + [Receive] + [Respond];
  }
}
