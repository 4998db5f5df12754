/**
 * The host's capacity document and what each broker call does to it. Every call takes the
 * document's lock, drops or re-marks what dead processes left behind, and then acts.
 * Names are ordered identifiers.
 */
module CapacityModel {
  import opened Wrappers

  datatype Token = T(n: nat)
  datatype Request = Q(n: nat)
  datatype Project = P(n: nat)
  datatype Provider = V(n: nat)
  datatype Resource = X(n: nat)

  type Positive = n: nat | n > 0 witness 1

  datatype Policy = Policy(maxWorkers: Positive, limits: map<Provider, Positive>)

  datatype LeaseStatus = Live | Orphan | NeedsReconcile

  // phase == waiting_provider, with what it waits for
  datatype Wait = Wait(provider: Provider, priority: int, at: nat)

  datatype Lease = Lease(
    token: Token,
    project: Project,
    provider: Option<Provider>,
    resources: set<Resource>,
    status: LeaseStatus,
    wait: Option<Wait>)

  datatype Waiter = Waiter(
    request: Request,
    project: Project,
    provider: Option<Provider>,
    resources: set<Resource>,
    at: nat)

  datatype State = State(leases: seq<Lease>, waiters: seq<Waiter>, last: Option<Project>)

  const EMPTY: State := State([], [], None)

  // What the process table and the heartbeats say about a lease at one moment.
  datatype Health = Gone | Stale | SupervisorGone | Healthy

  // A token or request that is not listed belongs to no living process.
  datatype Census = Census(health: map<Token, Health>, beating: set<Request>)

  function HealthOf(c: Census, token: Token): Health {
    if token in c.health then c.health[token] else Gone
  }

  function StatusOf(h: Health): LeaseStatus {
    match h
    case Stale => NeedsReconcile
    case SupervisorGone => Orphan
    case _ => Live
  }

  function Retained(leases: seq<Lease>, c: Census): seq<Lease> {
    if leases == [] then []
    else
      var h := HealthOf(c, leases[0].token);
      (if h == Gone then [] else [leases[0].(status := StatusOf(h))]) + Retained(leases[1..], c)
  }

  function Fresh(waiters: seq<Waiter>, c: Census): seq<Waiter> {
    if waiters == [] then []
    else (if waiters[0].request in c.beating then [waiters[0]] else []) + Fresh(waiters[1..], c)
  }

  function Reconcile(s: State, c: Census): State {
    s.(leases := Retained(s.leases, c), waiters := Fresh(s.waiters, c))
  }

  // ------------------------------------------------------------ availability

  function Holders(leases: seq<Lease>, p: Provider): nat {
    if leases == [] then 0
    else (if leases[0].provider == Some(p) then 1 else 0) + Holders(leases[1..], p)
  }

  predicate ProviderAvailable(policy: Policy, leases: seq<Lease>, provider: Option<Provider>) {
    || provider.None? || provider.value !in policy.limits
    || Holders(leases, provider.value) < policy.limits[provider.value]
  }

  function Occupied(leases: seq<Lease>): set<Resource> {
    if leases == [] then {} else leases[0].resources + Occupied(leases[1..])
  }

  predicate Allocatable(policy: Policy, s: State, w: Waiter) {
    && |s.leases| < policy.maxWorkers
    && ProviderAvailable(policy, s.leases, w.provider)
    && Occupied(s.leases) !! w.resources
  }

  // ------------------------------------------------------------ who is next

  // (requested_at, request_id)
  predicate Sooner(a: Waiter, b: Waiter) {
    a.at < b.at || (a.at == b.at && a.request.n <= b.request.n)
  }

  function InsertWaiter(w: Waiter, ws: seq<Waiter>): seq<Waiter> {
    if ws == [] || Sooner(w, ws[0]) then [w] + ws else [ws[0]] + InsertWaiter(w, ws[1..])
  }

  function Queued(ws: seq<Waiter>): seq<Waiter> {
    if ws == [] then [] else InsertWaiter(ws[0], Queued(ws[1..]))
  }

  function FirstFor(ws: seq<Waiter>, p: Project): Option<Waiter> {
    if ws == [] then None else if ws[0].project == p then Some(ws[0]) else FirstFor(ws[1..], p)
  }

  function Head(ws: seq<Waiter>, p: Project): Option<Waiter> {
    FirstFor(Queued(ws), p)
  }

  function InsertProject(p: Project, ps: seq<Project>): seq<Project> {
    if ps == [] || p.n < ps[0].n then [p] + ps
    else if p == ps[0] then ps
    else [ps[0]] + InsertProject(p, ps[1..])
  }

  function Projects(ws: seq<Waiter>): seq<Project> {
    if ws == [] then [] else InsertProject(ws[0].project, Projects(ws[1..]))
  }

  function IndexOf(ps: seq<Project>, p: Project): (i: nat)
    requires p in ps
    ensures i < |ps| && ps[i] == p
  {
    if ps[0] == p then 0 else 1 + IndexOf(ps[1..], p)
  }

  // Round robin: start after the project that was granted last.
  function Rotation(ps: seq<Project>, last: Option<Project>): seq<Project> {
    if last.Some? && last.value in ps
    then ps[IndexOf(ps, last.value) + 1..] + ps[..IndexOf(ps, last.value) + 1]
    else ps
  }

  function FirstAllocatable(policy: Policy, s: State, order: seq<Project>): Option<Waiter> {
    if order == [] then None
    else
      var head := Head(s.waiters, order[0]);
      if head.Some? && Allocatable(policy, s, head.value) then head else FirstAllocatable(policy, s, order[1..])
  }

  function Selected(policy: Policy, s: State): Option<Waiter> {
    FirstAllocatable(policy, s, Rotation(Projects(s.waiters), s.last))
  }

  // ------------------------------------------------------------ operations

  function HasRequest(ws: seq<Waiter>, r: Request): bool {
    exists i :: 0 <= i < |ws| && ws[i].request == r
  }

  function WithoutRequest(ws: seq<Waiter>, r: Request): seq<Waiter> {
    if ws == [] then []
    else (if ws[0].request == r then [] else [ws[0]]) + WithoutRequest(ws[1..], r)
  }

  function WithoutToken(ls: seq<Lease>, t: Token): seq<Lease> {
    if ls == [] then []
    else (if ls[0].token == t then [] else [ls[0]]) + WithoutToken(ls[1..], t)
  }

  // The position of the first lease with this token.
  function Find(ls: seq<Lease>, t: Token): (r: Option<nat>)
    ensures r.Some? ==> r.value < |ls| && ls[r.value].token == t
    ensures r.None? ==> forall i :: 0 <= i < |ls| ==> ls[i].token != t
  {
    if ls == [] then None
    else if ls[0].token == t then Some(0)
    else match Find(ls[1..], t) case Some(i) => Some(i + 1) case None => None
  }

  // The provider a caller asks for, if the policy limits it.
  function Normalized(policy: Policy, provider: Option<Provider>): Option<Provider> {
    if provider.Some? && provider.value in policy.limits then provider else None
  }

  function Enqueued(s: State, w: Waiter): State {
    if HasRequest(s.waiters, w.request) then s else s.(waiters := s.waiters + [w])
  }

  function Grant(s: State, w: Waiter, token: Token): State {
    State(s.leases + [Lease(token, w.project, w.provider, w.resources, Live, None)],
          WithoutRequest(s.waiters, w.request),
          Some(w.project))
  }

  predicate Grants(policy: Policy, s: State, c: Census, w: Waiter) {
    var queued := Enqueued(Reconcile(s, c), w);
    var next := Selected(policy, queued);
    next.Some? && next.value.request == w.request
  }

  function AcquirePoll(policy: Policy, s: State, c: Census, w: Waiter, token: Token): State {
    var queued := Enqueued(Reconcile(s, c), w);
    if Grants(policy, s, c, w) then Grant(queued, w, token) else queued
  }

  // (priority, requested_at, token)
  predicate Precedes(a: Lease, b: Lease)
    requires a.wait.Some? && b.wait.Some?
  {
    var x, y := a.wait.value, b.wait.value;
    x.priority < y.priority
    || (x.priority == y.priority && (x.at < y.at || (x.at == y.at && a.token.n <= b.token.n)))
  }

  predicate WaitsFor(l: Lease, p: Provider) {
    l.wait.Some? && l.wait.value.provider == p
  }

  predicate Least(ls: seq<Lease>, i: nat, p: Provider)
    requires i < |ls| && WaitsFor(ls[i], p)
  {
    forall j :: 0 <= j < |ls| && WaitsFor(ls[j], p) ==> Precedes(ls[i], ls[j])
  }

  // The lease gives up its provider and queues for the next one.
  function Queueing(l: Lease, p: Provider, priority: int, now: nat): Lease {
    l.(provider := None, wait := if WaitsFor(l, p) then l.wait else Some(Wait(p, priority, now)))
  }

  function TransitionAt(policy: Policy, ls: seq<Lease>, i: nat, provider: Option<Provider>, priority: int,
                        now: nat): seq<Lease>
    requires i < |ls|
  {
    var l := ls[i];
    if l.provider == provider then ls[i := l.(wait := None)]
    else if provider.None? then ls[i := l.(provider := None, wait := None)]
    else
      var p := provider.value;
      var waiting := ls[i := Queueing(l, p, priority, now)];
      if Least(waiting, i, p) && ProviderAvailable(policy, waiting, provider)
      then ls[i := l.(provider := provider, wait := None)]
      else waiting
  }

  function Beat(l: Lease): Lease {
    if l.status == NeedsReconcile then l.(status := Live) else l
  }

  datatype Op =
    | Poll(census: Census, request: Request, project: Project, provider: Option<Provider>,
           resources: set<Resource>, at: nat, token: Token)
    | CancelWaiter(census: Census, request: Request)
    | Heartbeat(census: Census, token: Token)
    | Transition(census: Census, token: Token, provider: Option<Provider>, priority: int, now: nat)
    | Release(census: Census, token: Token)
    | Snapshot(census: Census)

  function WaiterOf(policy: Policy, op: Op): Waiter
    requires op.Poll?
  {
    Waiter(op.request, op.project, Normalized(policy, op.provider), op.resources, op.at)
  }

  function Step(policy: Policy, s: State, op: Op): State {
    var r := Reconcile(s, op.census);
    match op
    case Poll(c, _, _, _, _, _, token) => AcquirePoll(policy, s, c, WaiterOf(policy, op), token)
    case CancelWaiter(_, request) => r.(waiters := WithoutRequest(r.waiters, request))
    case Heartbeat(_, token) =>
      (match Find(r.leases, token)
       case Some(i) => r.(leases := r.leases[i := Beat(r.leases[i])])
       case None => r)
    case Transition(_, token, provider, priority, now) =>
      // An unknown token is an error that writes nothing.
      (match Find(r.leases, token)
       case Some(i) =>
         r.(leases := TransitionAt(policy, r.leases, i, Normalized(policy, provider), priority, now))
       case None => s)
    case Release(_, token) => r.(leases := WithoutToken(r.leases, token))
    case Snapshot(_) => r
  }

  function Run(policy: Policy, s: State, ops: seq<Op>): State
    decreases |ops|
  {
    if ops == [] then s else Run(policy, Step(policy, s, ops[0]), ops[1..])
  }
}
