/** A ghost ledger of the COM/WMI resources one `HardwareIdentifier` holds.

    The session is built from three nested resources: the COM runtime of the
    calling thread (`CoInitializeEx` ... `CoUninitialize`), the `IWbemLocator`
    obtained from `CoCreateInstance`, and the `IWbemServices` proxy obtained
    from `ConnectServer`. A trace of events records every acquisition, every
    release and every WQL query the instance issues. `Replay` reads a trace
    under two rules:
      - resources are released in last-acquired-first-released order (a
        release of anything but the most recently acquired live resource is a
        violation);
      - a query may only be issued while a services proxy is live.
    A trace that replays from the empty ledger to exactly the resources the
    instance's fields own is a trace without leak, without out-of-order
    teardown and without a query outside a session. */
module Ledger {
  import opened Wrappers

  /** An opaque COM interface pointer: only its identity matters. */
  datatype Handle = Handle(id: nat)

  datatype Resource = ComRuntime | Locator(locator: Handle) | Services(services: Handle)

  datatype Event = Acquire(acquired: Resource) | Release(released: Resource) | Query(wql: string)

  /** Some live resource is a services proxy. */
  predicate HoldsServices(live: seq<Resource>) {
    exists i :: 0 <= i < |live| && live[i].Services?
  }

  /** One event applied to the stack of live resources; None is a violation. */
  function Step(live: seq<Resource>, e: Event): (r: Option<seq<Resource>>)
    ensures e.Acquire? ==> r == Some(live + [e.acquired])
    ensures e.Release? ==> (r.Some? <==> |live| > 0 && live[|live| - 1] == e.released)
    ensures r.Some? && e.Release? ==> live == r.value + [e.released]
    ensures e.Query? ==> (r.Some? <==> HoldsServices(live)) && (r.Some? ==> r.value == live)
  {
    match e
    case Acquire(res) => Some(live + [res])
    case Release(res) =>
      if |live| > 0 && live[|live| - 1] == res then Some(live[..|live| - 1]) else None
    case Query(_) => if HoldsServices(live) then Some(live) else None
  }

  /** The ledger after a whole trace, or None if some event violates the rules. */
  function Replay(live: seq<Resource>, events: seq<Event>): Option<seq<Resource>>
    decreases |events|
  {
    if events == [] then Some(live)
    else
      match Step(live, events[0])
      case None => None
      case Some(next) => Replay(next, events[1..])
  }

  /** Replaying a concatenation replays its two halves one after the other. */
  lemma {:induction false} ReplayAppend(live: seq<Resource>, a: seq<Event>, b: seq<Event>)
    ensures Replay(live, a + b) ==
            match Replay(live, a)
            case None => None
            case Some(mid) => Replay(mid, b)
    decreases |a|
  {
    if a == [] {
      assert a + b == b;
    } else {
      assert (a + b)[0] == a[0];
      assert (a + b)[1..] == a[1..] + b;
      match Step(live, a[0])
      case None =>
      case Some(next) => ReplayAppend(next, a[1..], b);
    }
  }

  /** Extending a trace by one event applies that event to the ledger it reached. */
  lemma ReplaySnoc(live: seq<Resource>, events: seq<Event>, e: Event)
    requires Replay(live, events).Some?
    ensures Replay(live, events + [e]) == Step(Replay(live, events).value, e)
  {
    ReplayAppend(live, events, [e]);
    var mid := Replay(live, events).value;
    assert Replay(mid, [e]) == Step(mid, e) by {
      assert [e][1..] == [];
    }
  }

  /** The full session, in acquisition order. */
  function Session(locator: Handle, services: Handle): (live: seq<Resource>)
    ensures |live| == 3 && HoldsServices(live)
  {
    var live := [ComRuntime, Locator(locator), Services(services)];
    assert live[2].Services?;
    live
  }

  /** Acquiring the COM runtime, then the locator, then the services proxy,
      from nothing, yields exactly the full session. */
  lemma SessionBuiltInOrder(l: Handle, s: Handle)
    ensures Replay([], [Acquire(ComRuntime), Acquire(Locator(l)), Acquire(Services(s))])
            == Some(Session(l, s))
  {
    var e := [Acquire(ComRuntime), Acquire(Locator(l)), Acquire(Services(s))];
    assert [] + [ComRuntime] == [ComRuntime];
    assert [ComRuntime] + [Locator(l)] == [ComRuntime, Locator(l)];
    assert [ComRuntime, Locator(l)] + [Services(s)] == Session(l, s);
    assert Replay(Session(l, s), e[1..][1..][1..]) == Some(Session(l, s));
    assert Replay([ComRuntime, Locator(l)], e[1..][1..]) == Some(Session(l, s));
    assert Replay([ComRuntime], e[1..]) == Some(Session(l, s));
  }

  /** Releasing a resource right after acquiring it leaves the ledger as it
      was: a failure path that undoes its last step leaks nothing. */
  lemma AcquireReleaseRestores(live: seq<Resource>, r: Resource)
    ensures Replay(live, [Acquire(r), Release(r)]) == Some(live)
  {
    var e := [Acquire(r), Release(r)];
    assert (live + [r])[..|live + [r]| - 1] == live;
    assert Replay(live, e[1..][1..]) == Some(live);
    assert Replay(live + [r], e[1..]) == Some(live);
  }

  /** Releasing services, then locator, then the COM runtime tears a session
      down to the ledger it was built on. */
  lemma TeardownInReverse(base: seq<Resource>, l: Handle, s: Handle)
    ensures Replay(base + Session(l, s),
                   [Release(Services(s)), Release(Locator(l)), Release(ComRuntime)]) == Some(base)
  {
    var full := base + Session(l, s);
    var e := [Release(Services(s)), Release(Locator(l)), Release(ComRuntime)];
    var two := base + [ComRuntime, Locator(l)];
    var one := base + [ComRuntime];
    assert full[..|full| - 1] == two;
    assert two[..|two| - 1] == one;
    assert one[..|one| - 1] == base;
    assert Replay(base, e[1..][1..][1..]) == Some(base);
    assert Replay(one, e[1..][1..]) == Some(base);
    assert Replay(two, e[1..]) == Some(base);
  }

  /** Any other first release of a full session violates the order: the
      locator and the COM runtime cannot be released while services are live. */
  lemma TeardownOutOfOrderFails(base: seq<Resource>, l: Handle, s: Handle, first: Resource)
    requires first != Services(s)
    ensures Replay(base + Session(l, s), [Release(first)]) == None
  {
  }
}
