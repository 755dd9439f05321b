/**
  Correlating request header events with the hops of a redirect chain
  (server/lib/cdpmonitor/network_capture.go). Base events and ExtraInfo arrive on
  independent streams; only hops whose response advertises ExtraInfo consume the queue.
*/
module HeaderMatching {
  import opened Collections

  /** One ExtraInfo payload; only its identity matters. */
  type Headers = nat

  /** closes counts how often the hop's requestReady channel has been closed. */
  datatype Hop = Hop(known: bool, hasExtra: bool, headers: Option<Headers>, matched: bool, closes: nat)

  function NewHop(): Hop {
    Hop(false, false, None, false, 0)
  }

  /** maxExtraInfoPerExchange bounds the headers waiting at any moment. */
  const MAX_EXTRA := 64

  /** accepted is the history of every ExtraInfo that was not dropped. */
  datatype Exchange = Exchange(hops: seq<Hop>, queue: seq<Headers>, accepted: seq<Headers>)

  function MatchOne(h: Hop, headers: Option<Headers>): Hop {
    h.(headers := if headers.Some? then headers else h.headers, matched := true, closes := h.closes + 1)
  }

  /** The loop of matchHeaders from hop i on: the hops and the queue it leaves. */
  function MatchFrom(hops: seq<Hop>, i: nat, queue: seq<Headers>): (seq<Hop>, seq<Headers>)
    requires i <= |hops|
    decreases |hops| - i
  {
    if i == |hops| || !hops[i].known then (hops, queue)
    else if hops[i].matched then MatchFrom(hops, i + 1, queue)
    else if !hops[i].hasExtra then MatchFrom(hops[i := MatchOne(hops[i], None)], i + 1, queue)
    else if queue == [] then (hops, queue)
    else MatchFrom(hops[i := MatchOne(hops[i], Some(queue[0]))], i + 1, queue[1..])
  }

  function Match(e: Exchange): Exchange {
    var r := MatchFrom(e.hops, 0, e.queue);
    e.(hops := r.0, queue := r.1)
  }

  /** A request hop joins the chain; an ExtraInfo arrives; a response says whether its hop
      has ExtraInfo; a failure resolves a hop that no response has resolved. */
  datatype Event =
    | AddHop
    | ExtraInfo(headers: Headers)
    | Resolve(hop: nat, hasExtra: bool)
    | Fail(hop: nat)

  function Resolved(e: Exchange, i: nat, hasExtra: bool): Exchange
    requires i < |e.hops|
  {
    e.(hops := e.hops[i := e.hops[i].(known := true, hasExtra := hasExtra)])
  }

  function Step(e: Exchange, ev: Event): Exchange {
    match ev
    case AddHop => e.(hops := e.hops + [NewHop()])
    case ExtraInfo(headers) =>
      if |e.queue| >= MAX_EXTRA then e
      else Match(e.(queue := e.queue + [headers], accepted := e.accepted + [headers]))
    case Resolve(i, hasExtra) =>
      if i < |e.hops| then Match(Resolved(e, i, hasExtra)) else e
    case Fail(i) =>
      if i < |e.hops| then Match(if e.hops[i].known then e else Resolved(e, i, true)) else e
  }

  // ---- What any chain of events keeps ----

  /** The headers handed out so far, in hop order. */
  function Consumed(hops: seq<Hop>): seq<Headers> {
    if hops == [] then []
    else
      var last := hops[|hops| - 1];
      Consumed(hops[..|hops| - 1]) + (if last.headers.Some? then [last.headers.value] else [])
  }

  /** Matched hops come first; a ready channel is closed exactly once, when its hop matches;
      only matched hops hold headers. */
  predicate PrefixMatched(hops: seq<Hop>) {
    && (forall i, j :: 0 <= i < j < |hops| && hops[j].matched ==> hops[i].matched)
    && (forall i :: 0 <= i < |hops| ==> hops[i].closes == if hops[i].matched then 1 else 0)
    && (forall i :: 0 <= i < |hops| && !hops[i].matched ==> hops[i].headers.None?)
    && (forall i :: 0 <= i < |hops| && hops[i].matched ==> hops[i].known)
  }

  /** Conservation: what was accepted has been consumed in hop order or is still queued. */
  predicate Conserved(e: Exchange) {
    PrefixMatched(e.hops) && e.accepted == Consumed(e.hops) + e.queue
  }

  lemma {:induction false} ConsumedPrefix(hops: seq<Hop>, n: nat)
    requires n <= |hops| && forall i :: n <= i < |hops| ==> hops[i].headers.None?
    ensures Consumed(hops) == Consumed(hops[..n])
  {
    if n == |hops| {
      assert hops[..n] == hops;
    } else {
      ConsumedPrefix(hops[..|hops| - 1], n);
      assert hops[..|hops| - 1][..n] == hops[..n];
    }
  }

  /** Matching hop i next, with everything before it matched. */
  lemma ConsumedNext(hops: seq<Hop>, i: nat, headers: Option<Headers>)
    requires i < |hops| && (forall j :: i <= j < |hops| ==> hops[j].headers.None?)
    ensures Consumed(hops[i := MatchOne(hops[i], headers)]) ==
      Consumed(hops) + (if headers.Some? then [headers.value] else [])
  {
    var after := hops[i := MatchOne(hops[i], headers)];
    ConsumedPrefix(hops, i);
    ConsumedPrefix(after, i + 1);
    assert after[..i + 1][..i] == hops[..i];
    assert after[..i + 1][i] == after[i];
  }

  /** The loop keeps conservation from any point it can be at. */
  lemma {:induction false} MatchFromKeeps(hops: seq<Hop>, i: nat, queue: seq<Headers>, accepted: seq<Headers>)
    requires i <= |hops| && PrefixMatched(hops) && accepted == Consumed(hops) + queue
    requires forall j :: 0 <= j < i ==> hops[j].matched
    ensures var r := MatchFrom(hops, i, queue);
      && |r.0| == |hops| && PrefixMatched(r.0) && accepted == Consumed(r.0) + r.1
      && (forall j :: 0 <= j < |hops| ==> r.0[j].known == hops[j].known && r.0[j].hasExtra == hops[j].hasExtra)
    decreases |hops| - i
  {
    if i == |hops| || !hops[i].known {
    } else if hops[i].matched {
      MatchFromKeeps(hops, i + 1, queue, accepted);
    } else if !hops[i].hasExtra {
      ConsumedNext(hops, i, None);
      MatchFromKeeps(hops[i := MatchOne(hops[i], None)], i + 1, queue, accepted);
    } else if queue != [] {
      ConsumedNext(hops, i, Some(queue[0]));
      assert Consumed(hops) + queue == (Consumed(hops) + [queue[0]]) + queue[1..];
      MatchFromKeeps(hops[i := MatchOne(hops[i], Some(queue[0]))], i + 1, queue[1..], accepted);
    }
  }

  lemma {:induction false} ConsumedSameHeaders(a: seq<Hop>, b: seq<Hop>)
    requires |a| == |b| && forall i :: 0 <= i < |a| ==> a[i].headers == b[i].headers
    ensures Consumed(a) == Consumed(b)
  {
    if a != [] {
      ConsumedSameHeaders(a[..|a| - 1], b[..|b| - 1]);
    }
  }

  lemma StepConserves(e: Exchange, ev: Event)
    requires Conserved(e)
    ensures Conserved(Step(e, ev))
  {
    match ev {
      case AddHop =>
        var longer := e.hops + [NewHop()];
        assert longer[..|longer| - 1] == e.hops;
      case ExtraInfo(headers) =>
        if |e.queue| < MAX_EXTRA {
          assert Consumed(e.hops) + (e.queue + [headers]) == e.accepted + [headers];
          MatchFromKeeps(e.hops, 0, e.queue + [headers], e.accepted + [headers]);
        }
      case Resolve(i, hasExtra) =>
        if i < |e.hops| {
          ConsumedSameHeaders(Resolved(e, i, hasExtra).hops, e.hops);
          MatchFromKeeps(Resolved(e, i, hasExtra).hops, 0, e.queue, e.accepted);
        }
      case Fail(i) =>
        if i < |e.hops| {
          var r := if e.hops[i].known then e else Resolved(e, i, true);
          ConsumedSameHeaders(r.hops, e.hops);
          MatchFromKeeps(r.hops, 0, e.queue, e.accepted);
        }
    }
  }

  // ---- Confluence ----

  /** How many of the first n hops advertise ExtraInfo. */
  function Extras(hops: seq<Hop>, n: nat): nat
    requires n <= |hops|
  {
    if n == 0 then 0 else Extras(hops, n - 1) + (if hops[n - 1].hasExtra then 1 else 0)
  }

  /** A matched hop: it holds the accepted ExtraInfo of its own rank among the advertising
      hops, or nothing when it advertised none. */
  predicate Holds(e: Exchange, i: nat)
    requires i < |e.hops|
  {
    var h := e.hops[i];
    && h.matched && h.known && h.closes == 1
    && (if h.hasExtra then Extras(e.hops, i) < |e.accepted| && h.headers == Some(e.accepted[Extras(e.hops, i)])
        else h.headers.None?)
  }

  predicate Blank(h: Hop) {
    !h.matched && h.closes == 0 && h.headers.None? && (!h.known ==> !h.hasExtra)
  }

  /** Exactly the first p hops are matched, each with its own headers. */
  predicate At(e: Exchange, p: nat) {
    && p <= |e.hops|
    && (forall i :: 0 <= i < p ==> Holds(e, i))
    && (forall i :: p <= i < |e.hops| ==> Blank(e.hops[i]))
    && Extras(e.hops, p) <= |e.accepted|
    && e.queue == e.accepted[Extras(e.hops, p)..]
  }

  /** Nothing more can be matched. */
  predicate Stuck(e: Exchange, p: nat) {
    p >= |e.hops| || !e.hops[p].known || (e.hops[p].hasExtra && e.queue == [])
  }

  /** Matching has gone exactly as far as the resolutions and the accepted ExtraInfo allow. */
  ghost predicate Settled(e: Exchange) {
    exists p :: At(e, p) && Stuck(e, p)
  }

  lemma {:induction false} ExtrasSame(a: seq<Hop>, b: seq<Hop>, n: nat)
    requires n <= |a| && n <= |b| && forall i :: 0 <= i < n ==> a[i].hasExtra == b[i].hasExtra
    ensures Extras(a, n) == Extras(b, n)
  {
    if n > 0 {
      ExtrasSame(a, b, n - 1);
    }
  }

  /** Matching hop p of an exchange that stands at p moves it to p + 1. */
  lemma AtNext(e: Exchange, p: nat)
    requires At(e, p) && !Stuck(e, p)
    ensures var headers := if e.hops[p].hasExtra then Some(e.queue[0]) else None;
      At(e.(hops := e.hops[p := MatchOne(e.hops[p], headers)],
            queue := if e.hops[p].hasExtra then e.queue[1..] else e.queue), p + 1)
  {
    var headers := if e.hops[p].hasExtra then Some(e.queue[0]) else None;
    var next := e.(hops := e.hops[p := MatchOne(e.hops[p], headers)],
                   queue := if e.hops[p].hasExtra then e.queue[1..] else e.queue);
    forall i | 0 <= i <= p ensures Extras(next.hops, i) == Extras(e.hops, i) {
      ExtrasSame(next.hops, e.hops, i);
    }
    forall i | 0 <= i < p ensures Holds(next, i) {
      assert Holds(e, i);
    }
  }

  lemma {:induction false} MatchSettles(e: Exchange, p: nat)
    requires At(e, p)
    ensures var r := MatchFrom(e.hops, p, e.queue); Settled(e.(hops := r.0, queue := r.1))
    decreases |e.hops| - p
  {
    if Stuck(e, p) {
      assert e.(hops := e.hops, queue := e.queue) == e;
    } else {
      AtNext(e, p);
      var headers := if e.hops[p].hasExtra then Some(e.queue[0]) else None;
      var next := e.(hops := e.hops[p := MatchOne(e.hops[p], headers)],
                     queue := if e.hops[p].hasExtra then e.queue[1..] else e.queue);
      MatchSettles(next, p + 1);
    }
  }

  /** The loop walks over hops that are already matched. */
  lemma {:induction false} MatchSkips(hops: seq<Hop>, i: nat, p: nat, queue: seq<Headers>)
    requires i <= p <= |hops| && forall j :: i <= j < p ==> hops[j].known && hops[j].matched
    ensures MatchFrom(hops, i, queue) == MatchFrom(hops, p, queue)
    decreases p - i
  {
    if i < p {
      MatchSkips(hops, i + 1, p, queue);
    }
  }

  lemma MatchFromAt(e: Exchange, p: nat)
    requires At(e, p)
    ensures Settled(Match(e))
  {
    KnownBefore(e, p);
    MatchSkips(e.hops, 0, p, e.queue);
    MatchSettles(e, p);
  }

  /** A later response contradicts what a hop was matched with. */
  predicate Contradicts(e: Exchange, ev: Event) {
    ev.Resolve? && ev.hop < |e.hops| && e.hops[ev.hop].matched && e.hops[ev.hop].hasExtra != ev.hasExtra
  }

  lemma ResolvedAt(e: Exchange, p: nat, i: nat, hasExtra: bool)
    requires At(e, p) && i < |e.hops| && (e.hops[i].matched ==> e.hops[i].hasExtra == hasExtra)
    ensures At(Resolved(e, i, hasExtra), p)
  {
    var r := Resolved(e, i, hasExtra);
    assert i < p ==> Holds(e, i);
    forall j | 0 <= j < p ensures r.hops[j] == e.hops[j] && Holds(e, j) {
    }
    forall j | 0 <= j <= p ensures Extras(r.hops, j) == Extras(e.hops, j) {
      ExtrasSame(r.hops, e.hops, j);
    }
  }

  lemma AddHopAt(e: Exchange, p: nat)
    requires At(e, p) && Stuck(e, p)
    ensures Settled(Step(e, AddHop))
  {
    var r := Step(e, AddHop);
    forall j | 0 <= j <= p ensures Extras(r.hops, j) == Extras(e.hops, j) {
      ExtrasSame(r.hops, e.hops, j);
    }
    forall j | 0 <= j < p ensures Holds(r, j) {
      assert Holds(e, j);
    }
    assert At(r, p) && Stuck(r, p);
  }

  lemma ExtraInfoAt(e: Exchange, p: nat, headers: Headers)
    requires At(e, p)
    ensures At(e.(queue := e.queue + [headers], accepted := e.accepted + [headers]), p)
  {
    var r := e.(queue := e.queue + [headers], accepted := e.accepted + [headers]);
    forall j | 0 <= j < p ensures Holds(r, j) {
      assert Holds(e, j);
    }
  }

  lemma KnownBefore(e: Exchange, p: nat)
    requires At(e, p)
    ensures forall j :: 0 <= j < p ==> e.hops[j].known && e.hops[j].matched
  {
    forall j | 0 <= j < p ensures e.hops[j].known && e.hops[j].matched {
      assert Holds(e, j);
    }
  }

  /** Every event that does not contradict a matched hop leaves matching settled again. */
  lemma StepSettles(e: Exchange, ev: Event)
    requires Settled(e) && !Contradicts(e, ev)
    ensures Settled(Step(e, ev))
  {
    var p: nat :| At(e, p) && Stuck(e, p);
    KnownBefore(e, p);
    hide At, Stuck, Settled, Match;
    match ev {
      case AddHop =>
        AddHopAt(e, p);
      case ExtraInfo(headers) =>
        if |e.queue| < MAX_EXTRA {
          ExtraInfoAt(e, p, headers);
          MatchFromAt(e.(queue := e.queue + [headers], accepted := e.accepted + [headers]), p);
        } else {
          StillSettled(e, p);
        }
      case Resolve(i, hasExtra) =>
        if i < |e.hops| {
          ResolvedAt(e, p, i, hasExtra);
          MatchFromAt(Resolved(e, i, hasExtra), p);
        } else {
          StillSettled(e, p);
        }
      case Fail(i) =>
        if i >= |e.hops| {
          StillSettled(e, p);
        } else if e.hops[i].known {
          MatchFromAt(e, p);
        } else {
          BlankAfter(e, p, i);
          ResolvedAt(e, p, i, true);
          MatchFromAt(Resolved(e, i, true), p);
        }
    }
  }

  lemma StillSettled(e: Exchange, p: nat)
    requires At(e, p) && Stuck(e, p)
    ensures Settled(e)
  {
  }

  lemma BlankAfter(e: Exchange, p: nat, i: nat)
    requires At(e, p) && i < |e.hops| && !e.hops[i].known
    ensures !e.hops[i].matched
  {
    KnownBefore(e, p);
  }

  /** A hop that has been matched is never touched again by the loop. */
  lemma {:induction false} MatchFixes(hops: seq<Hop>, i: nat, queue: seq<Headers>, j: nat)
    requires i <= |hops| && j < |hops| && hops[j].matched
    ensures |MatchFrom(hops, i, queue).0| == |hops| && MatchFrom(hops, i, queue).0[j] == hops[j]
    decreases |hops| - i
  {
    if i == |hops| || !hops[i].known {
    } else if hops[i].matched {
      MatchFixes(hops, i + 1, queue, j);
    } else if !hops[i].hasExtra {
      MatchFixes(hops[i := MatchOne(hops[i], None)], i + 1, queue, j);
    } else if queue != [] {
      MatchFixes(hops[i := MatchOne(hops[i], Some(queue[0]))], i + 1, queue[1..], j);
    }
  }

  /** Exactly when a second response for a hop is harmless: it is not matched yet, or it
      says the same again. Otherwise a matched hop no longer holds the headers it advertises. */
  lemma ResolveSettlesIff(e: Exchange, i: nat, hasExtra: bool)
    requires Settled(e) && i < |e.hops|
    ensures Settled(Step(e, Resolve(i, hasExtra))) <==> !(e.hops[i].matched && e.hops[i].hasExtra != hasExtra)
  {
    if !Contradicts(e, Resolve(i, hasExtra)) {
      StepSettles(e, Resolve(i, hasExtra));
    } else {
      var p: nat :| At(e, p) && Stuck(e, p);
      assert i < p && Holds(e, i);
      var r := Resolved(e, i, hasExtra);
      MatchFixes(r.hops, 0, e.queue, i);
      var after := Step(e, Resolve(i, hasExtra));
      assert after.hops[i] == r.hops[i];
      assert !Holds(after, i) && !Blank(after.hops[i]);
    }
  }

  /** Same resolutions and same accepted ExtraInfo: the same exchange, whatever the order. */
  lemma SettledIsUnique(a: Exchange, b: Exchange)
    requires Settled(a) && Settled(b) && a.accepted == b.accepted && |a.hops| == |b.hops|
    requires forall i :: 0 <= i < |a.hops| ==>
      a.hops[i].known == b.hops[i].known && a.hops[i].hasExtra == b.hops[i].hasExtra
    ensures a == b
  {
    var p: nat :| At(a, p) && Stuck(a, p);
    var q: nat :| At(b, q) && Stuck(b, q);
    if p < q {
      NotBeyond(a, p, b, q);
    } else if q < p {
      NotBeyond(b, q, a, p);
    }
    assert p == q;
    hide Stuck, Settled;
    ExtrasSame(a.hops, b.hops, p);
    forall i | 0 <= i < |a.hops| ensures a.hops[i] == b.hops[i] { SameHop(a, b, p, i); }
  }

  lemma SameHop(a: Exchange, b: Exchange, p: nat, i: nat)
    requires At(a, p) && At(b, p) && a.accepted == b.accepted && |a.hops| == |b.hops| && i < |a.hops|
    requires forall j :: 0 <= j < |a.hops| ==>
      a.hops[j].known == b.hops[j].known && a.hops[j].hasExtra == b.hops[j].hasExtra
    ensures a.hops[i] == b.hops[i]
  {
    if i < p {
      assert Holds(a, i) && Holds(b, i);
      ExtrasSame(a.hops, b.hops, i);
    } else {
      assert Blank(a.hops[i]) && Blank(b.hops[i]);
    }
  }

  /** An exchange stuck at p cannot agree with one that got past p. */
  lemma NotBeyond(a: Exchange, p: nat, b: Exchange, q: nat)
    requires At(a, p) && At(b, q) && p < q && a.accepted == b.accepted && |a.hops| == |b.hops|
    requires forall i :: 0 <= i < |a.hops| ==>
      a.hops[i].known == b.hops[i].known && a.hops[i].hasExtra == b.hops[i].hasExtra
    ensures !Stuck(a, p)
  {
    assert Holds(b, p);
    ExtrasSame(a.hops, b.hops, p);
  }

  // ---- Whole runs ----

  const EMPTY_EXCHANGE := Exchange([], [], [])

  ghost predicate IsRun(trace: seq<Exchange>, events: seq<Event>) {
    && |trace| == |events| + 1
    && trace[0] == EMPTY_EXCHANGE
    && forall i :: 0 <= i < |events| ==> trace[i + 1] == Step(trace[i], events[i])
  }

  ghost predicate NeverContradicts(trace: seq<Exchange>, events: seq<Event>)
    requires |trace| == |events| + 1
  {
    forall i :: 0 <= i < |events| ==> !Contradicts(trace[i], events[i])
  }

  /** Over every run, re-resolutions included: matched hops form a prefix, each ready channel
      is closed exactly once when its hop matches, and accepted = consumed + queued. */
  lemma {:induction false} RunConserves(trace: seq<Exchange>, events: seq<Event>, n: nat)
    requires IsRun(trace, events) && n <= |events|
    ensures Conserved(trace[n])
  {
    if n > 0 {
      RunConserves(trace, events, n - 1);
      hide Step, Conserved;
      StepConserves(trace[n - 1], events[n - 1]);
      assert trace[n - 1 + 1] == Step(trace[n - 1], events[n - 1]);
    }
  }

  lemma {:induction false} RunSettles(trace: seq<Exchange>, events: seq<Event>, n: nat)
    requires IsRun(trace, events) && NeverContradicts(trace, events) && n <= |events|
    ensures Settled(trace[n])
  {
    if n == 0 {
      assert At(trace[0], 0) && Stuck(trace[0], 0);
    } else {
      RunSettles(trace, events, n - 1);
      hide Step, Settled;
      StepSettles(trace[n - 1], events[n - 1]);
      assert trace[n - 1 + 1] == Step(trace[n - 1], events[n - 1]);
    }
  }

  /** Confluence: two runs that end with the same hops resolved the same way and the same
      ExtraInfo accepted end in the same state, however their events interleaved. */
  lemma MatchingIsConfluent(t: seq<Exchange>, es: seq<Event>, u: seq<Exchange>, fs: seq<Event>)
    requires IsRun(t, es) && IsRun(u, fs) && NeverContradicts(t, es) && NeverContradicts(u, fs)
    requires var a, b := t[|es|], u[|fs|];
      && a.accepted == b.accepted && |a.hops| == |b.hops|
      && forall i :: 0 <= i < |a.hops| ==>
           a.hops[i].known == b.hops[i].known && a.hops[i].hasExtra == b.hops[i].hasExtra
    ensures t[|es|] == u[|fs|]
  {
    RunSettles(t, es, |es|);
    RunSettles(u, fs, |fs|);
    hide IsRun, Settled;
    SettledIsUnique(t[|es|], u[|fs|]);
  }

  // ---- How a hop is resolved ----

  function HopsAdded(events: seq<Event>): nat {
    if events == [] then 0
    else HopsAdded(events[..|events| - 1]) + (if events[|events| - 1].AddHop? then 1 else 0)
  }

  /** What the events say about hop i: its latest response, or else, from its first failure on,
      that it has ExtraInfo; nothing while neither has come. */
  function Says(events: seq<Event>, i: nat): Option<bool> {
    if events == [] then None
    else
      var before, last := events[..|events| - 1], events[|events| - 1];
      if last.Resolve? && last.hop == i && i < HopsAdded(before) then Some(last.hasExtra)
      else if last.Fail? && last.hop == i && i < HopsAdded(before) && Says(before, i).None? then Some(true)
      else Says(before, i)
  }

  predicate SaidBy(e: Exchange, events: seq<Event>) {
    && |e.hops| == HopsAdded(events)
    && forall i :: 0 <= i < |e.hops| ==>
         e.hops[i].known == Says(events, i).Some? && (e.hops[i].known ==> e.hops[i].hasExtra == Says(events, i).value)
  }

  lemma {:induction false} SaysLater(events: seq<Event>, i: nat)
    requires i >= HopsAdded(events)
    ensures Says(events, i).None?
  {
    if events != [] { SaysLater(events[..|events| - 1], i); }
  }

  /** The loop neither resolves hops nor adds any. */
  lemma {:induction false} MatchSaysNothing(hops: seq<Hop>, i: nat, queue: seq<Headers>)
    requires i <= |hops|
    ensures var r := MatchFrom(hops, i, queue).0;
      && |r| == |hops| && |MatchFrom(hops, i, queue).1| <= |queue|
      && forall j :: 0 <= j < |hops| ==> r[j].known == hops[j].known && r[j].hasExtra == hops[j].hasExtra
    decreases |hops| - i
  {
    if i == |hops| || !hops[i].known {
    } else if hops[i].matched {
      MatchSaysNothing(hops, i + 1, queue);
    } else if !hops[i].hasExtra {
      MatchSaysNothing(hops[i := MatchOne(hops[i], None)], i + 1, queue);
    } else if queue != [] {
      MatchSaysNothing(hops[i := MatchOne(hops[i], Some(queue[0]))], i + 1, queue[1..]);
    }
  }

  lemma StepSays(e: Exchange, ev: Event, events: seq<Event>)
    requires SaidBy(e, events) && |e.queue| <= MAX_EXTRA
    ensures SaidBy(Step(e, ev), events + [ev]) && |Step(e, ev).queue| <= MAX_EXTRA
  {
    var later := events + [ev];
    assert later[..|later| - 1] == events && later[|later| - 1] == ev;
    SaysLater(events, |e.hops|);
    match ev {
      case AddHop =>
      case ExtraInfo(headers) =>
        if |e.queue| < MAX_EXTRA { MatchSaysNothing(e.hops, 0, e.queue + [headers]); }
      case Resolve(i, hasExtra) =>
        if i < |e.hops| { MatchSaysNothing(Resolved(e, i, hasExtra).hops, 0, e.queue); }
      case Fail(i) =>
        if i < |e.hops| {
          MatchSaysNothing(e.hops, 0, e.queue);
          MatchSaysNothing(Resolved(e, i, true).hops, 0, e.queue);
        }
    }
  }

  /** In every run a hop counts as resolved, and as having ExtraInfo, exactly as the events so
      far say; and never more than 64 ExtraInfo wait. */
  lemma {:induction false} RunSays(trace: seq<Exchange>, events: seq<Event>, n: nat)
    requires IsRun(trace, events) && n <= |events|
    ensures SaidBy(trace[n], events[..n]) && |trace[n].queue| <= MAX_EXTRA
  {
    if n > 0 {
      RunSays(trace, events, n - 1);
      hide Step, SaidBy;
      StepSays(trace[n - 1], events[n - 1], events[..n - 1]);
      assert events[..n] == events[..n - 1] + [events[n - 1]];
      assert trace[n - 1 + 1] == Step(trace[n - 1], events[n - 1]);
    }
  }

  /** Hop i is the next one to be matched. */
  predicate IsNext(e: Exchange, i: nat) {
    i < |e.hops| && !e.hops[i].matched && forall j :: 0 <= j < i ==> e.hops[j].matched
  }

  lemma MatchesNext(e: Exchange, i: nat)
    requires At(e, i) && IsNext(e, i) && e.hops[i].known
    ensures var r := Match(e);
      && |r.hops| == |e.hops| && r.hops[i].known
      && (if !e.hops[i].hasExtra then r.hops[i].matched && r.hops[i].headers.None?
          else if e.queue != [] then r.hops[i].matched && r.hops[i].headers == Some(e.queue[0])
          else r == e)
  {
    KnownBefore(e, i);
    MatchSkips(e.hops, 0, i, e.queue);
    var headers := if e.hops[i].hasExtra && e.queue != [] then Some(e.queue[0]) else None;
    var next := e.hops[i := MatchOne(e.hops[i], headers)];
    if !e.hops[i].hasExtra {
      MatchFixes(next, i + 1, e.queue, i);
    } else if e.queue != [] {
      MatchFixes(next, i + 1, e.queue[1..], i);
    }
  }

  lemma NextIsHere(e: Exchange, p: nat, i: nat)
    requires At(e, p) && IsNext(e, i)
    ensures p == i
  {
    assert p < i ==> Blank(e.hops[p]);
    assert i < p ==> Holds(e, i);
  }

  /** The first thing said about the hop that is next: a response without ExtraInfo matches it
      with nothing; a response with ExtraInfo, or a failure, matches it with exactly the first
      ExtraInfo that waits; and when none waits the hop stays unmatched. */
  lemma ResolvingNext(trace: seq<Exchange>, events: seq<Event>, n: nat, i: nat)
    requires IsRun(trace, events) && NeverContradicts(trace, events) && n < |events|
    requires IsNext(trace[n], i) && !trace[n].hops[i].known
    requires events[n] == Fail(i) || (events[n].Resolve? && events[n].hop == i)
    ensures var e, r := trace[n], trace[n + 1];
      && i < |r.hops| && r.hops[i].known
      && (if events[n].Resolve? && !events[n].hasExtra then r.hops[i].matched && r.hops[i].headers.None?
          else if e.queue != [] then r.hops[i].matched && r.hops[i].headers == Some(e.queue[0])
          else IsNext(r, i) && r.hops[i].hasExtra && r.queue == [])
  {
    RunSettles(trace, events, n);
    var e := trace[n];
    var p: nat :| At(e, p) && Stuck(e, p);
    NextIsHere(e, p, i);
    var extra := if events[n].Resolve? then events[n].hasExtra else true;
    ResolvedAt(e, i, i, extra);
    MatchesNext(Resolved(e, i, extra), i);
    assert trace[n + 1] == Step(e, events[n]);
  }

  /** A hop that waits for its ExtraInfo goes on waiting, whatever else happens, and takes
      exactly the next one that arrives. */
  lemma {:induction false} WaitsForNext(trace: seq<Exchange>, events: seq<Event>, n: nat, m: nat, i: nat)
    requires IsRun(trace, events) && NeverContradicts(trace, events) && n <= m < |events|
    requires IsNext(trace[n], i) && trace[n].hops[i].known && trace[n].hops[i].hasExtra && trace[n].queue == []
    requires forall k :: n <= k < m ==> !events[k].ExtraInfo? && !(events[k].Resolve? && events[k].hop == i)
    ensures IsNext(trace[m], i) && trace[m].hops[i].known && trace[m].hops[i].hasExtra && trace[m].queue == []
    ensures events[m].ExtraInfo? ==>
      i < |trace[m + 1].hops| && trace[m + 1].hops[i].matched && trace[m + 1].hops[i].headers == Some(events[m].headers)
    decreases m - n
  {
    if n < m {
      WaitsForNext(trace, events, n, m - 1, i);
      RunSettles(trace, events, m - 1);
      StillWaits(trace[m - 1], events[m - 1], i);
      assert trace[m - 1 + 1] == Step(trace[m - 1], events[m - 1]);
    }
    if events[m].ExtraInfo? {
      RunSettles(trace, events, m);
      TakesNext(trace[m], i, events[m].headers);
      assert trace[m + 1] == Step(trace[m], events[m]);
    }
  }

  lemma TakesNext(e: Exchange, i: nat, headers: Headers)
    requires Settled(e) && IsNext(e, i) && e.hops[i].known && e.hops[i].hasExtra && e.queue == []
    ensures var r := Step(e, ExtraInfo(headers));
      i < |r.hops| && r.hops[i].matched && r.hops[i].headers == Some(headers)
  {
    var p: nat :| At(e, p) && Stuck(e, p);
    NextIsHere(e, p, i);
    ExtraInfoAt(e, i, headers);
    MatchesNext(e.(queue := e.queue + [headers], accepted := e.accepted + [headers]), i);
  }

  lemma StillWaits(e: Exchange, ev: Event, i: nat)
    requires Settled(e) && IsNext(e, i) && e.hops[i].known && e.hops[i].hasExtra && e.queue == []
    requires !ev.ExtraInfo? && !(ev.Resolve? && ev.hop == i) && !Contradicts(e, ev)
    ensures var r := Step(e, ev);
      IsNext(r, i) && r.hops[i].known && r.hops[i].hasExtra && r.queue == []
  {
    var p: nat :| At(e, p) && Stuck(e, p);
    NextIsHere(e, p, i);
    match ev {
      case AddHop =>
      case Resolve(j, hasExtra) =>
        if j < |e.hops| {
          ResolvedAt(e, i, j, hasExtra);
          MatchesNext(Resolved(e, j, hasExtra), i);
        }
      case Fail(j) =>
        if j < |e.hops| {
          MatchesNext(e, i);
          if !e.hops[j].known {
            BlankAfter(e, i, j);
            ResolvedAt(e, i, j, true);
            MatchesNext(Resolved(e, j, true), i);
          }
        }
    }
  }

  /** The failure of a hop that a response has resolved, or an earlier failure, changes nothing. */
  lemma LateFailureIsNothing(trace: seq<Exchange>, events: seq<Event>, n: nat, i: nat)
    requires IsRun(trace, events) && NeverContradicts(trace, events) && n < |events|
    requires events[n] == Fail(i) && Says(events[..n], i).Some?
    ensures trace[n + 1] == trace[n]
  {
    RunSays(trace, events, n);
    RunSettles(trace, events, n);
    RunSettles(trace, events, n + 1);
    if i < |trace[n].hops| {
      MatchSaysNothing(trace[n].hops, 0, trace[n].queue);
      assert trace[n + 1] == Step(trace[n], events[n]);
      hide IsRun, Settled, MatchFrom;
      SettledIsUnique(trace[n + 1], trace[n]);
    } else {
      SaysLater(events[..n], i);
    }
  }

  // ---- The exchange as the source updates it ----

  class NetworkExchange {
    var hops: seq<Hop>
    var requests: seq<Headers>
    ghost var accepted: seq<Headers>

    ghost function View(): Exchange
      reads this
    {
      Exchange(hops, requests, accepted)
    }

    constructor ()
      ensures View() == EMPTY_EXCHANGE
    {
      hops, requests, accepted := [], [], [];
    }

    method MatchHeaders()
      modifies this
      ensures View() == Match(old(View()))
    {
      var i := 0;
      while i < |hops|
        invariant i <= |hops| && accepted == old(accepted)
        invariant MatchFrom(hops, i, requests) == MatchFrom(old(hops), 0, old(requests))
      {
        var h := hops[i];
        if !h.known {
          break;
        }
        if h.matched {
          i := i + 1;
          continue;
        }
        if h.hasExtra {
          if |requests| == 0 {
            break;
          }
          h := h.(headers := Some(requests[0]));
          requests := requests[1..];
        }
        h := h.(matched := true, closes := h.closes + 1);
        hops := hops[i := h];
        i := i + 1;
      }
    }

    method QueueRequest() returns (hop: nat)
      modifies this
      ensures hop == |old(hops)| && View() == Step(old(View()), AddHop)
    {
      hop := |hops|;
      hops := hops + [NewHop()];
    }

    method HandleExtraInfo(headers: Headers)
      modifies this
      ensures View() == Step(old(View()), ExtraInfo(headers))
    {
      if |requests| >= MAX_EXTRA {
        return;
      }
      requests := requests + [headers];
      accepted := accepted + [headers];
      MatchHeaders();
    }

    method ResolveHeaders(i: nat, hasExtra: bool)
      requires i < |hops|
      modifies this
      ensures View() == Step(old(View()), Resolve(i, hasExtra))
    {
      hops := hops[i := hops[i].(known := true, hasExtra := hasExtra)];
      MatchHeaders();
    }

    method ResolveFailed(i: nat)
      requires i < |hops|
      modifies this
      ensures View() == Step(old(View()), Fail(i))
    {
      if !hops[i].known {
        hops := hops[i := hops[i].(known := true, hasExtra := true)];
      }
      MatchHeaders();
    }
  }
}
