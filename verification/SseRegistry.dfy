/**
 The registry of connections on one node: sessions by user, connections by address, and the gauge of connected
 clients, which each connection changes outside the lock. Users, addresses and connections are named by numbers.
 Entering and removing are each one step under the lock. A connection over the cluster limit enters, is counted, and is
 rolled back; the cluster counter itself is not modelled, so whether it is over the limit is an input of the step. In
 between, registry and gauge disagree by the connections that have entered or left and not yet touched the gauge.
 */
module SseRegistry {
  import opened Basics

  /** Where one connection is: each runs through these in its own goroutine. Entered to Open are in the registry. */
  datatype Phase = Entered | Counted | Open | Left | Gone

  /** address is None when the client's address is unknown; such connections are not counted by address. */
  datatype Conn = Conn(user: nat, address: Option<nat>, phase: Phase) {
    predicate Registered() {
      phase == Entered || phase == Counted || phase == Open
    }

    /** Its increment of the gauge is done and its decrement is not. */
    predicate InGauge() {
      phase == Counted || phase == Open || phase == Left
    }
  }

  datatype Hub = Hub(
    sessions: map<nat, set<nat>>,
    ipCounts: map<nat, int>,
    gauge: int,
    closed: bool,
    maxPerUser: nat,
    maxPerIP: nat,
    conns: map<nat, Conn>)

  datatype Step =
    | Enter(id: nat, user: nat, address: Option<nat>)
    | CountUp(id: nat)
    | Reserve(id: nat, overLimit: bool)
    | Leave(id: nat)
    | CountDown(id: nat)
    | CloseHub

  function Session(sessions: map<nat, set<nat>>, user: nat): set<nat> {
    if user in sessions then sessions[user] else {}
  }

  function CountOf(ipCounts: map<nat, int>, address: nat): int {
    if address in ipCounts then ipCounts[address] else 0
  }

  function Increment(ipCounts: map<nat, int>, address: Option<nat>): map<nat, int> {
    if address.None? then ipCounts else ipCounts[address.value := CountOf(ipCounts, address.value) + 1]
  }

  /** The count is deleted with its last connection. */
  function Decrement(ipCounts: map<nat, int>, address: Option<nat>): map<nat, int> {
    if address.None? then ipCounts
    else if CountOf(ipCounts, address.value) - 1 > 0 then ipCounts[address.value := CountOf(ipCounts, address.value) - 1]
    else ipCounts - {address.value}
  }

  function Join(sessions: map<nat, set<nat>>, user: nat, id: nat): map<nat, set<nat>> {
    sessions[user := Session(sessions, user) + {id}]
  }

  /** A session goes with its last connection. */
  function Part(sessions: map<nat, set<nat>>, user: nat, id: nat): map<nat, set<nat>> {
    if Session(sessions, user) - {id} == {} then sessions - {user}
    else sessions[user := Session(sessions, user) - {id}]
  }

  predicate AtAddressLimit(h: Hub, address: Option<nat>) {
    address.Some? && CountOf(h.ipCounts, address.value) >= h.maxPerIP
  }

  predicate AtUserLimit(h: Hub, user: nat) {
    user in h.sessions && |h.sessions[user]| >= h.maxPerUser
  }

  predicate Refuses(h: Hub, user: nat, address: Option<nat>) {
    h.closed || AtAddressLimit(h, address) || AtUserLimit(h, user)
  }

  function SetPhase(h: Hub, id: nat, phase: Phase): Hub
    requires id in h.conns
  {
    h.(conns := h.conns[id := h.conns[id].(phase := phase)])
  }

  /** The part of Register under the lock. */
  function DoEnter(h: Hub, id: nat, user: nat, address: Option<nat>): Hub {
    if id in h.conns || Refuses(h, user, address) then h
    else
      h.(sessions := Join(h.sessions, user, id), ipCounts := Increment(h.ipCounts, address),
         conns := h.conns[id := Conn(user, address, Entered)])
  }

  function DoCountUp(h: Hub, id: nat): Hub {
    if id in h.conns && h.conns[id].phase == Entered then SetPhase(h, id, Counted).(gauge := h.gauge + 1) else h
  }

  /** The part of removeClient under the lock; a connection that is not there any more is left alone. */
  function DoRemove(h: Hub, id: nat): Hub
    requires id in h.conns
  {
    var c := h.conns[id];
    if c.user !in h.sessions || id !in h.sessions[c.user] then h
    else
      SetPhase(h, id, Left).(sessions := Part(h.sessions, c.user, id), ipCounts := Decrement(h.ipCounts, c.address))
  }

  /** Over the cluster limit the registration is rolled back. */
  function DoReserve(h: Hub, id: nat, overLimit: bool): Hub {
    if id !in h.conns || h.conns[id].phase != Counted then h
    else if overLimit then DoRemove(h, id)
    else SetPhase(h, id, Open)
  }

  function DoLeave(h: Hub, id: nat): Hub {
    if id in h.conns && h.conns[id].phase == Open then DoRemove(h, id) else h
  }

  function DoCountDown(h: Hub, id: nat): Hub {
    if id in h.conns && h.conns[id].phase == Left then SetPhase(h, id, Gone).(gauge := h.gauge - 1) else h
  }

  function Next(h: Hub, step: Step): Hub {
    match step
    case Enter(id, user, address) => DoEnter(h, id, user, address)
    case CountUp(id) => DoCountUp(h, id)
    case Reserve(id, overLimit) => DoReserve(h, id, overLimit)
    case Leave(id) => DoLeave(h, id)
    case CountDown(id) => DoCountDown(h, id)
    case CloseHub => h.(closed := true)
  }

  function Exec(h: Hub, steps: seq<Step>): Hub {
    if steps == [] then h else Next(Exec(h, steps[..|steps| - 1]), steps[|steps| - 1])
  }

  function Fresh(maxPerUser: nat, maxPerIP: nat): Hub {
    Hub(map[], map[], 0, false, maxPerUser, maxPerIP, map[])
  }

  // The truth the registry keeps account of.

  function OfUser(conns: map<nat, Conn>, user: nat): set<nat> {
    set id | id in conns && conns[id].Registered() && conns[id].user == user
  }

  function OfAddress(conns: map<nat, Conn>, address: nat): set<nat> {
    set id | id in conns && conns[id].Registered() && conns[id].address == Some(address)
  }

  function Gauged(conns: map<nat, Conn>): set<nat> {
    set id | id in conns && conns[id].InGauge()
  }

  function AllRegistered(conns: map<nat, Conn>): set<nat> {
    set id | id in conns && conns[id].Registered()
  }

  /** A session is the non-empty set of the user's connections, within the limit. */
  ghost predicate UserOk(sessions: map<nat, set<nat>>, user: nat, truth: set<nat>, maxPerUser: nat) {
    && Session(sessions, user) == truth
    && (user in sessions ==> truth != {} && |truth| <= maxPerUser)
  }

  /** A count is the number of connections from the address, positive and within the limit. */
  ghost predicate AddressOk(ipCounts: map<nat, int>, address: nat, truth: set<nat>, maxPerIP: nat) {
    && CountOf(ipCounts, address) == |truth|
    && (address in ipCounts ==> 0 < |truth| <= maxPerIP)
  }

  ghost predicate SessionsOk(h: Hub, conns: map<nat, Conn>) {
    forall user: nat :: UserOk(h.sessions, user, OfUser(conns, user), h.maxPerUser)
  }

  ghost predicate CountsOk(h: Hub, conns: map<nat, Conn>) {
    forall address: nat :: AddressOk(h.ipCounts, address, OfAddress(conns, address), h.maxPerIP)
  }

  ghost predicate RegistryInv(h: Hub) {
    && h.maxPerUser > 0
    && SessionsOk(h, h.conns)
    && CountsOk(h, h.conns)
    && h.gauge == |Gauged(h.conns)|
  }

  function At(here: bool, id: nat): set<nat> {
    if here then {id} else {}
  }

  lemma EnterSets(conns: map<nat, Conn>, id: nat, c: Conn)
    requires id !in conns && c.phase == Entered
    ensures forall u: nat {:trigger OfUser(conns[id := c], u)} ::
              OfUser(conns[id := c], u) == OfUser(conns, u) + At(u == c.user, id) && id !in OfUser(conns, u)
    ensures forall a: nat {:trigger OfAddress(conns[id := c], a)} ::
              OfAddress(conns[id := c], a) == OfAddress(conns, a) + At(c.address == Some(a), id) && id !in OfAddress(conns, a)
    ensures Gauged(conns[id := c]) == Gauged(conns)
  {
  }

  /** Leaving takes the connection out of its two sets, and keeps it in the gauge. */
  lemma LeaveSets(conns: map<nat, Conn>, id: nat)
    requires id in conns && conns[id].Registered() && conns[id].InGauge()
    ensures var c := conns[id];
            var after := conns[id := c.(phase := Left)];
            && (forall u: nat {:trigger OfUser(after, u)} ::
                  OfUser(after, u) == OfUser(conns, u) - At(u == c.user, id) && (id in OfUser(conns, u) <==> u == c.user))
            && (forall a: nat {:trigger OfAddress(after, a)} ::
                  OfAddress(after, a) == OfAddress(conns, a) - At(c.address == Some(a), id)
                  && (id in OfAddress(conns, a) <==> c.address == Some(a)))
            && Gauged(after) == Gauged(conns)
  {
    var after := conns[id := conns[id].(phase := Left)];
    forall u: nat ensures OfUser(after, u) == OfUser(conns, u) - At(u == conns[id].user, id) {
    }
    forall a: nat ensures OfAddress(after, a) == OfAddress(conns, a) - At(conns[id].address == Some(a), id) {
    }
  }

  /** A change of phase inside or outside the registry leaves the sets alone but for the gauge's. */
  lemma PhaseSets(conns: map<nat, Conn>, id: nat, phase: Phase)
    requires id in conns && conns[id].Registered() == conns[id].(phase := phase).Registered()
    ensures var after := conns[id := conns[id].(phase := phase)];
            && (forall u: nat {:trigger OfUser(after, u)} :: OfUser(after, u) == OfUser(conns, u))
            && (forall a: nat {:trigger OfAddress(after, a)} :: OfAddress(after, a) == OfAddress(conns, a))
            && Gauged(after) == Gauged(conns) - {id} + At(after[id].InGauge(), id)
            && (id in Gauged(conns) <==> conns[id].InGauge())
  {
    var after := conns[id := conns[id].(phase := phase)];
    forall u: nat ensures OfUser(after, u) == OfUser(conns, u) {
    }
    forall a: nat ensures OfAddress(after, a) == OfAddress(conns, a) {
    }
  }

  lemma JoinOk(sessions: map<nat, set<nat>>, user: nat, id: nat, u: nat, truth: set<nat>, maxPerUser: nat)
    requires UserOk(sessions, u, truth, maxPerUser) && id !in truth && maxPerUser > 0
    requires user in sessions ==> |sessions[user]| < maxPerUser
    ensures UserOk(Join(sessions, user, id), u, truth + At(u == user, id), maxPerUser)
  {
  }

  lemma PartOk(sessions: map<nat, set<nat>>, user: nat, id: nat, u: nat, truth: set<nat>, maxPerUser: nat)
    requires UserOk(sessions, u, truth, maxPerUser) && (id in truth <==> u == user)
    ensures UserOk(Part(sessions, user, id), u, truth - At(u == user, id), maxPerUser)
  {
  }

  lemma IncrementOk(ipCounts: map<nat, int>, address: Option<nat>, id: nat, a: nat, truth: set<nat>, maxPerIP: nat)
    requires AddressOk(ipCounts, a, truth, maxPerIP) && id !in truth
    requires address.Some? ==> CountOf(ipCounts, address.value) < maxPerIP
    ensures AddressOk(Increment(ipCounts, address), a, truth + At(address == Some(a), id), maxPerIP)
  {
  }

  lemma DecrementOk(ipCounts: map<nat, int>, address: Option<nat>, id: nat, a: nat, truth: set<nat>, maxPerIP: nat)
    requires AddressOk(ipCounts, a, truth, maxPerIP) && (id in truth <==> address == Some(a))
    ensures AddressOk(Decrement(ipCounts, address), a, truth - At(address == Some(a), id), maxPerIP)
  {
    assert address == Some(a) ==> |truth - {id}| == |truth| - 1;
  }

  lemma EnterKeeps(h: Hub, id: nat, user: nat, address: Option<nat>)
    requires RegistryInv(h)
    ensures RegistryInv(DoEnter(h, id, user, address))
  {
    if id !in h.conns && !Refuses(h, user, address) {
      var t := DoEnter(h, id, user, address);
      EnterSets(h.conns, id, Conn(user, address, Entered));
      hide OfUser, OfAddress, Gauged, UserOk, AddressOk, Join, Increment;
      forall u: nat ensures UserOk(t.sessions, u, OfUser(t.conns, u), t.maxPerUser) {
        JoinOk(h.sessions, user, id, u, OfUser(h.conns, u), h.maxPerUser);
      }
      forall a: nat ensures AddressOk(t.ipCounts, a, OfAddress(t.conns, a), t.maxPerIP) {
        IncrementOk(h.ipCounts, address, id, a, OfAddress(h.conns, a), h.maxPerIP);
      }
    }
  }

  lemma RemoveKeeps(h: Hub, id: nat)
    requires RegistryInv(h) && id in h.conns && h.conns[id].Registered() && h.conns[id].InGauge()
    ensures RegistryInv(DoRemove(h, id)) && DoRemove(h, id).conns[id].phase == Left
  {
    var t, c := DoRemove(h, id), h.conns[id];
    LeaveSets(h.conns, id);
    assert UserOk(h.sessions, c.user, OfUser(h.conns, c.user), h.maxPerUser);
    assert id in OfUser(h.conns, c.user);
    hide OfUser, OfAddress, Gauged, AddressOk, Part, Decrement;
    forall u: nat ensures UserOk(t.sessions, u, OfUser(t.conns, u), t.maxPerUser) {
      PartOk(h.sessions, c.user, id, u, OfUser(h.conns, u), h.maxPerUser);
    }
    forall a: nat ensures AddressOk(t.ipCounts, a, OfAddress(t.conns, a), t.maxPerIP) {
      DecrementOk(h.ipCounts, c.address, id, a, OfAddress(h.conns, a), h.maxPerIP);
    }
  }

  lemma PhaseKeeps(h: Hub, id: nat, phase: Phase, gauge: int)
    requires RegistryInv(h) && id in h.conns && h.conns[id].Registered() == h.conns[id].(phase := phase).Registered()
    requires gauge - h.gauge == |At(h.conns[id].(phase := phase).InGauge(), id)| - |At(h.conns[id].InGauge(), id)|
    ensures RegistryInv(SetPhase(h, id, phase).(gauge := gauge))
  {
    PhaseSets(h.conns, id, phase);
    hide OfUser, OfAddress, Gauged, UserOk, AddressOk;
    var t := SetPhase(h, id, phase).(gauge := gauge);
    forall u: nat ensures UserOk(t.sessions, u, OfUser(t.conns, u), t.maxPerUser) {
      assert UserOk(h.sessions, u, OfUser(h.conns, u), h.maxPerUser);
    }
    forall a: nat ensures AddressOk(t.ipCounts, a, OfAddress(t.conns, a), t.maxPerIP) {
      assert AddressOk(h.ipCounts, a, OfAddress(h.conns, a), h.maxPerIP);
    }
  }

  lemma CloseKeeps(h: Hub)
    requires RegistryInv(h)
    ensures RegistryInv(h.(closed := true))
  {
    hide OfUser, OfAddress, Gauged, UserOk, AddressOk;
    var t := h.(closed := true);
    forall u: nat ensures UserOk(t.sessions, u, OfUser(t.conns, u), t.maxPerUser) {
      assert UserOk(h.sessions, u, OfUser(h.conns, u), h.maxPerUser);
    }
    forall a: nat ensures AddressOk(t.ipCounts, a, OfAddress(t.conns, a), t.maxPerIP) {
      assert AddressOk(h.ipCounts, a, OfAddress(h.conns, a), h.maxPerIP);
    }
  }

  lemma RegistryKeeps(h: Hub, step: Step)
    requires RegistryInv(h)
    ensures RegistryInv(Next(h, step))
  {
    hide RegistryInv, DoRemove;
    match step
    case Enter(id, user, address) => EnterKeeps(h, id, user, address);
    case CountUp(id) =>
      if id in h.conns && h.conns[id].phase == Entered {
        PhaseKeeps(h, id, Counted, h.gauge + 1);
      }
    case Reserve(id, overLimit) =>
      if id in h.conns && h.conns[id].phase == Counted {
        RemoveKeeps(h, id);
        PhaseKeeps(h, id, Open, h.gauge);
      }
    case Leave(id) =>
      if id in h.conns && h.conns[id].phase == Open {
        RemoveKeeps(h, id);
      }
    case CountDown(id) =>
      if id in h.conns && h.conns[id].phase == Left {
        PhaseKeeps(h, id, Gone, h.gauge - 1);
      }
    case CloseHub => CloseKeeps(h);
  }

  /**
   After every step of every run, with connections entering, being rolled back and leaving in any order: each session
   and each address count is exactly what the registered connections make it, none is empty, both limits hold, and the
   gauge is the number of connections whose increment is done and whose decrement is not.
   */
  lemma {:induction false} AccountingHolds(maxPerUser: nat, maxPerIP: nat, steps: seq<Step>)
    requires maxPerUser > 0
    ensures RegistryInv(Exec(Fresh(maxPerUser, maxPerIP), steps))
    decreases |steps|
  {
    if steps != [] {
      hide RegistryInv, Next;
      AccountingHolds(maxPerUser, maxPerIP, steps[..|steps| - 1]);
      RegistryKeeps(Exec(Fresh(maxPerUser, maxPerIP), steps[..|steps| - 1]), steps[|steps| - 1]);
    }
  }

  ghost predicate Quiescent(h: Hub) {
    forall id :: id in h.conns ==> h.conns[id].phase == Open || h.conns[id].phase == Gone
  }

  /** With nobody in the middle of registering or leaving the gauge is the number of registered connections. */
  lemma GaugeAtQuiescence(maxPerUser: nat, maxPerIP: nat, steps: seq<Step>)
    requires maxPerUser > 0 && Quiescent(Exec(Fresh(maxPerUser, maxPerIP), steps))
    ensures var h := Exec(Fresh(maxPerUser, maxPerIP), steps); h.gauge == |AllRegistered(h.conns)|
  {
    AccountingHolds(maxPerUser, maxPerIP, steps);
    var h := Exec(Fresh(maxPerUser, maxPerIP), steps);
    assert Gauged(h.conns) == AllRegistered(h.conns);
  }

  lemma NotThere(h: Hub, id: nat, user: nat, address: Option<nat>)
    requires RegistryInv(h) && id !in h.conns && !Refuses(h, user, address)
    ensures var t := DoCountUp(DoEnter(h, id, user, address), id);
            forall u: nat :: Session(t.sessions, u) - At(u == user, id) == Session(h.sessions, u)
  {
    forall u: nat ensures id !in Session(h.sessions, u) {
      assert UserOk(h.sessions, u, OfUser(h.conns, u), h.maxPerUser);
    }
  }

  /** Registration is refused exactly when the hub is closed or the connections there really are have reached a limit. */
  lemma RefusesIff(h: Hub, user: nat, address: Option<nat>)
    requires RegistryInv(h)
    ensures Refuses(h, user, address)
            <==> || h.closed
                 || |OfUser(h.conns, user)| >= h.maxPerUser
                 || (address.Some? && |OfAddress(h.conns, address.value)| >= h.maxPerIP)
  {
    assert UserOk(h.sessions, user, OfUser(h.conns, user), h.maxPerUser);
    if address.Some? {
      assert AddressOk(h.ipCounts, address.value, OfAddress(h.conns, address.value), h.maxPerIP);
    }
    hide OfUser, OfAddress;
  }

  /** A new connection that is not refused is let in: it is registered, and its own user and address count it. */
  lemma EnterLetsIn(h: Hub, id: nat, user: nat, address: Option<nat>)
    requires RegistryInv(h) && id !in h.conns && !Refuses(h, user, address)
    ensures var t := Next(h, Enter(id, user, address));
            && id in t.conns && t.conns[id] == Conn(user, address, Entered)
            && id in OfUser(t.conns, user) && (address.Some? ==> id in OfAddress(t.conns, address.value))
  {
  }

  /** Below the cluster limit the connection is open, over it it is out again. */
  lemma ReserveIs(h: Hub, id: nat, user: nat, address: Option<nat>, overLimit: bool)
    requires RegistryInv(h) && id !in h.conns && !Refuses(h, user, address)
    ensures var a := DoCountUp(DoEnter(h, id, user, address), id);
            DoReserve(a, id, overLimit)
            == if overLimit then DoRemove(a, id)
               else h.(sessions := Join(h.sessions, user, id), ipCounts := Increment(h.ipCounts, address), gauge := h.gauge + 1,
                       conns := h.conns[id := Conn(user, address, Open)])
  {
    EnteredIs(h, id, user, address);
    hide RegistryInv, DoEnter, DoCountUp, Refuses, Join, Increment, DoRemove;
    assert h.conns[id := Conn(user, address, Counted)][id := Conn(user, address, Open)] == h.conns[id := Conn(user, address, Open)];
  }

  /** A connection that comes, is over the cluster limit or not, and goes leaves everything as it was but its own end. */
  lemma ComesAndGoes(h: Hub, id: nat, user: nat, address: Option<nat>)
    requires RegistryInv(h) && id !in h.conns && !Refuses(h, user, address)
    ensures var a := DoCountUp(DoEnter(h, id, user, address), id);
            var gone := h.(conns := h.conns[id := Conn(user, address, Gone)]);
            && DoCountDown(DoReserve(a, id, true), id) == gone
            && DoCountDown(DoLeave(DoReserve(a, id, false), id), id) == gone
  {
    var a := DoCountUp(DoEnter(h, id, user, address), id);
    RolledBack(h, id, user, address);
    ReserveIs(h, id, user, address, true);
    ReserveIs(h, id, user, address, false);
    Unlisted(h, id, user, address);
    var b := DoReserve(a, id, false);
    assert id in b.conns && b.conns[id].phase == Open;
    assert DoLeave(b, id) == DoRemove(b, id);
    hide *;
    EnteredThenRemoved(h, id, user, address, Open);
  }

  lemma ClosedStep(h: Hub, step: Step)
    requires h.closed
    ensures Next(h, step).closed && Next(h, step).conns.Keys == h.conns.Keys
  {
    hide Part, Decrement, Join, Increment, Session, CountOf;
  }

  /** A closed hub lets nobody in any more, and stays closed. */
  lemma {:induction false} ClosedForGood(h: Hub, steps: seq<Step>)
    ensures var t := Exec(Next(h, CloseHub), steps); t.closed && t.conns.Keys == h.conns.Keys
    decreases |steps|
  {
    if steps != [] {
      ClosedForGood(h, steps[..|steps| - 1]);
      var t := Exec(Next(h, CloseHub), steps[..|steps| - 1]);
      hide Next;
      ClosedStep(t, steps[|steps| - 1]);
    }
  }

  /** A fresh hub is open to anybody: the first connection gets through to the end. */
  lemma FirstIsLetIn(maxPerUser: nat, maxPerIP: nat, user: nat, address: Option<nat>)
    requires maxPerUser > 0 && maxPerIP > 0
    ensures !Refuses(Fresh(maxPerUser, maxPerIP), user, address)
    ensures var t := Exec(Fresh(maxPerUser, maxPerIP), [Enter(0, user, address), CountUp(0), Reserve(0, false)]);
            0 in t.conns && t.conns[0] == Conn(user, address, Open) && t.gauge == 1
  {
    var s := Fresh(maxPerUser, maxPerIP);
    var a := Next(s, Enter(0, user, address));
    var b := Next(a, CountUp(0));
    var c := Next(b, Reserve(0, false));
    assert c.conns[0] == Conn(user, address, Open) && c.gauge == 1;
    hide Next;
    var steps := [Enter(0, user, address), CountUp(0), Reserve(0, false)];
    assert steps[..2][..1][..0] == [] && steps[..2][..1] == steps[..1] && steps[..1][0] == steps[0] && steps[..2][1] == steps[1];
    assert Exec(s, steps[..0]) == s;
    assert Exec(s, steps[..1]) == a;
    assert Exec(s, steps[..2]) == b;
    assert Exec(s, steps) == c;
  }

  datatype Outcome = Registered | HubClosed | IPLimit | UserLimit

  class ConnectionHub {
    var sessions: map<nat, set<nat>>
    var ipCounts: map<nat, int>
    var gauge: int
    var closed: bool
    const maxPerUser: nat
    const maxPerIP: nat
    ghost var conns: map<nat, Conn>

    constructor (maxPerUser: nat, maxPerIP: nat)
      requires maxPerUser > 0
      ensures Valid() && View() == Fresh(maxPerUser, maxPerIP)
    {
      sessions, ipCounts, gauge, closed := map[], map[], 0, false;
      this.maxPerUser, this.maxPerIP := maxPerUser, maxPerIP;
      conns := map[];
    }

    ghost function View(): Hub
      reads this
    {
      Hub(sessions, ipCounts, gauge, closed, maxPerUser, maxPerIP, conns)
    }

    ghost predicate Valid()
      reads this
    {
      RegistryInv(View())
    }

    /**
     Registering a fresh connection: refused with nothing changed and the limit named that was reached first, or
     entered, counted and kept, or, over the cluster limit, rolled back: sessions, address counts and gauge are again
     what they were, and the connection is gone.
     */
    method Register(id: nat, user: nat, address: Option<nat>, overLimit: bool) returns (outcome: Outcome)
      requires Valid() && id !in conns
      modifies this
      ensures Valid()
      ensures outcome == Registered ==> View() == DoReserve(DoCountUp(DoEnter(old(View()), id, user, address), id), id, false)
      ensures Refuses(old(View()), user, address) ==> View() == old(View())
      ensures !Refuses(old(View()), user, address) && overLimit ==>
                View() == old(View()).(conns := old(conns)[id := Conn(user, address, Gone)])
      ensures outcome == (if old(closed) then HubClosed
                          else if AtAddressLimit(old(View()), address) then IPLimit
                          else if AtUserLimit(old(View()), user) || overLimit then UserLimit
                          else Registered)
    {
      if closed {
        return HubClosed;
      }
      if address.Some? && CountOf(ipCounts, address.value) >= maxPerIP {
        return IPLimit;
      }
      if user in sessions && |sessions[user]| >= maxPerUser {
        return UserLimit;
      }
      RolledBack(View(), id, user, address);
      hide RegistryInv, Join, Increment, DoEnter, DoCountUp, DoReserve, DoCountDown, DoRemove;
      EnterRegistry(id, user, address);
      if overLimit {
        var removed := RemoveClient(id, user, address);
        return UserLimit;
      }
      MarkOpen(id);
      outcome := Registered;
    }

    /** The locked section, and then the increment of the gauge. */
    method EnterRegistry(id: nat, user: nat, address: Option<nat>)
      requires Valid() && id !in conns && !Refuses(View(), user, address)
      modifies this`sessions, this`ipCounts, this`conns, this`gauge
      ensures Valid() && View() == DoCountUp(DoEnter(old(View()), id, user, address), id)
      ensures id in conns && conns[id] == Conn(user, address, Counted) && gauge == old(gauge) + 1
      ensures forall u: nat :: Session(sessions, u) - At(u == user, id) == Session(old(sessions), u)
    {
      ghost var before := View();
      EnteredFacts(before, id, user, address);
      hide RegistryInv, Join, Increment;
      sessions := Join(sessions, user, id);
      ipCounts := Increment(ipCounts, address);
      conns := conns[id := Conn(user, address, Counted)];
      gauge := gauge + 1;
    }

    method MarkOpen(id: nat)
      requires Valid() && id in conns && conns[id].phase == Counted
      modifies this`conns
      ensures Valid() && View() == DoReserve(old(View()), id, false)
    {
      RegistryKeeps(View(), Reserve(id, false));
      hide RegistryInv;
      conns := conns[id := conns[id].(phase := Open)];
    }

    /** Removing twice does nothing the second time. */
    method RemoveClient(id: nat, user: nat, address: Option<nat>) returns (removed: bool)
      requires Valid() && id in conns && conns[id].user == user && conns[id].address == address
      requires conns[id].phase in {Counted, Open, Left, Gone}
      modifies this
      ensures Valid()
      ensures removed <==> old(conns[id]).Registered()
      ensures removed ==> View() == DoCountDown(DoRemove(old(View()), id), id) && gauge == old(gauge) - 1
      ensures !removed ==> View() == old(View())
      ensures forall u: nat :: Session(sessions, u) == Session(old(sessions), u) - At(removed && u == user, id)
    {
      ghost var before := View();
      ThereIff(before, id);
      if user !in sessions || id !in sessions[user] {
        return false;
      }
      RemovedFacts(before, id);
      hide RegistryInv, Part, Decrement;
      sessions := Part(sessions, user, id);
      ipCounts := Decrement(ipCounts, address);
      conns := conns[id := conns[id].(phase := Left)];
      conns, gauge := conns[id := conns[id].(phase := Gone)], gauge - 1;
      removed := true;
    }
  }

  lemma EnteredFacts(h: Hub, id: nat, user: nat, address: Option<nat>)
    requires RegistryInv(h) && id !in h.conns && !Refuses(h, user, address)
    ensures var t := DoCountUp(DoEnter(h, id, user, address), id);
            && RegistryInv(t)
            && t == h.(sessions := Join(h.sessions, user, id), ipCounts := Increment(h.ipCounts, address), gauge := h.gauge + 1,
                       conns := h.conns[id := Conn(user, address, Counted)])
            && forall u: nat :: Session(t.sessions, u) - At(u == user, id) == Session(h.sessions, u)
  {
    hide RegistryInv, DoEnter, DoCountUp, Join, Increment;
    EnteredIs(h, id, user, address);
    NotThere(h, id, user, address);
    RegistryKeeps(h, Enter(id, user, address));
    RegistryKeeps(DoEnter(h, id, user, address), CountUp(id));
  }

  /** Entering and being removed leaves the registry as it was: an emptied session and a zero count go. */
  lemma RolledBack(h: Hub, id: nat, user: nat, address: Option<nat>)
    requires RegistryInv(h) && id !in h.conns && !Refuses(h, user, address)
    ensures var t := DoCountUp(DoEnter(h, id, user, address), id);
            DoCountDown(DoRemove(t, id), id) == h.(conns := h.conns[id := Conn(user, address, Gone)])
  {
    Unlisted(h, id, user, address);
    EnteredIs(h, id, user, address);
    hide *;
    EnteredThenRemoved(h, id, user, address, Counted);
  }

  lemma EnteredThenRemoved(h: Hub, id: nat, user: nat, address: Option<nat>, phase: Phase)
    requires id !in Session(h.sessions, user) && (user in h.sessions ==> h.sessions[user] != {})
    requires address.Some? && address.value in h.ipCounts ==> h.ipCounts[address.value] > 0
    ensures var t := h.(sessions := Join(h.sessions, user, id), ipCounts := Increment(h.ipCounts, address), gauge := h.gauge + 1,
                        conns := h.conns[id := Conn(user, address, phase)]);
            DoCountDown(DoRemove(t, id), id) == h.(conns := h.conns[id := Conn(user, address, Gone)])
  {
    var t := h.(sessions := Join(h.sessions, user, id), ipCounts := Increment(h.ipCounts, address), gauge := h.gauge + 1,
                conns := h.conns[id := Conn(user, address, phase)]);
    PartUndoesJoin(h.sessions, user, id);
    DecrementUndoesIncrement(h.ipCounts, address);
    assert id in Session(t.sessions, user);
    hide Join, Part, Increment, Decrement, DoRemove, DoCountDown;
    RemovedIs(t, id);
    assert t.conns[id := Conn(user, address, Gone)] == h.conns[id := Conn(user, address, Gone)];
  }

  lemma Unlisted(h: Hub, id: nat, user: nat, address: Option<nat>)
    requires RegistryInv(h) && id !in h.conns
    ensures id !in Session(h.sessions, user) && (user in h.sessions ==> h.sessions[user] != {})
    ensures address.Some? && address.value in h.ipCounts ==> h.ipCounts[address.value] > 0
  {
    assert UserOk(h.sessions, user, OfUser(h.conns, user), h.maxPerUser) && id !in OfUser(h.conns, user);
    if address.Some? {
      assert AddressOk(h.ipCounts, address.value, OfAddress(h.conns, address.value), h.maxPerIP);
    }
  }

  lemma RemovedIs(h: Hub, id: nat)
    requires id in h.conns && id in Session(h.sessions, h.conns[id].user)
    ensures var c := h.conns[id];
            DoCountDown(DoRemove(h, id), id)
            == h.(sessions := Part(h.sessions, c.user, id), ipCounts := Decrement(h.ipCounts, c.address), gauge := h.gauge - 1,
                  conns := h.conns[id := c.(phase := Gone)])
  {
    hide Part, Decrement;
    var c := h.conns[id];
    assert h.conns[id := c.(phase := Left)][id := c.(phase := Gone)] == h.conns[id := c.(phase := Gone)];
  }

  lemma PartUndoesJoin(sessions: map<nat, set<nat>>, user: nat, id: nat)
    requires id !in Session(sessions, user) && (user in sessions ==> sessions[user] != {})
    ensures Part(Join(sessions, user, id), user, id) == sessions
  {
    assert Session(sessions, user) + {id} - {id} == Session(sessions, user);
  }

  lemma DecrementUndoesIncrement(ipCounts: map<nat, int>, address: Option<nat>)
    requires address.Some? && address.value in ipCounts ==> ipCounts[address.value] > 0
    ensures Decrement(Increment(ipCounts, address), address) == ipCounts
  {
  }

  lemma EnteredIs(h: Hub, id: nat, user: nat, address: Option<nat>)
    requires id !in h.conns && !Refuses(h, user, address)
    ensures DoCountUp(DoEnter(h, id, user, address), id)
            == h.(sessions := Join(h.sessions, user, id), ipCounts := Increment(h.ipCounts, address), gauge := h.gauge + 1,
                  conns := h.conns[id := Conn(user, address, Counted)])
  {
    hide Join, Increment, Refuses;
  }

  lemma ThereIff(h: Hub, id: nat)
    requires RegistryInv(h) && id in h.conns
    ensures id in Session(h.sessions, h.conns[id].user) <==> h.conns[id].Registered()
  {
    assert UserOk(h.sessions, h.conns[id].user, OfUser(h.conns, h.conns[id].user), h.maxPerUser);
    assert id in OfUser(h.conns, h.conns[id].user) <==> h.conns[id].Registered();
  }

  lemma RemovedFacts(h: Hub, id: nat)
    requires RegistryInv(h) && id in h.conns && h.conns[id].Registered() && h.conns[id].InGauge()
    ensures var t := DoCountDown(DoRemove(h, id), id);
            && RegistryInv(t) && t.gauge == h.gauge - 1
            && t.sessions == Part(h.sessions, h.conns[id].user, id)
            && forall u: nat :: Session(t.sessions, u) == Session(h.sessions, u) - At(u == h.conns[id].user, id)
  {
    ThereIff(h, id);
    RemoveKeeps(h, id);
    RegistryKeeps(DoRemove(h, id), CountDown(id));
    hide RegistryInv;
  }
}
