/**
  Counters of finished requests that count a request once, remembering only the last few
  (server/lib/cdpmonitor/network_metrics.go). The totals do not wrap.
*/
module CounterRing {

  const HISTORY_SIZE: nat := 8192
  const MAX_ID: nat := 256
  const CONNECTION_RESET := "net::ERR_CONNECTION_RESET"

  newtype Byte = x: int | 0 <= x < 256

  /** Identifiers are byte strings, and their length is counted in bytes. */
  type Text = seq<Byte>

  datatype Key = Key(session: Text, request: Text)

  const EMPTY := Key([], [])

  predicate IsAcceptable(session: Text, request: Text) {
    session != [] && request != [] && |session| <= MAX_ID && |request| <= MAX_ID
  }

  /** The last keys counted, oldest first. */
  function Recent(counted: seq<Key>): seq<Key> {
    if |counted| <= HISTORY_SIZE then counted else counted[|counted| - HISTORY_SIZE..]
  }

  /** What one terminal event adds to the keys counted in this generation. */
  function Count(counted: seq<Key>, key: Key): seq<Key> {
    if !IsAcceptable(key.session, key.request) || key in Recent(counted) then counted else counted + [key]
  }

  function CountAll(keys: seq<Key>): seq<Key> {
    if keys == [] then [] else Count(CountAll(keys[..|keys| - 1]), keys[|keys| - 1])
  }

  /** Between two counts of one key lie at least as many counts of others as are remembered. */
  predicate Spaced(counted: seq<Key>) {
    forall i, j :: 0 <= i < j < |counted| && counted[i] == counted[j] ==> j - i > HISTORY_SIZE
  }

  lemma RecentAt(counted: seq<Key>, i: nat)
    requires i < |counted| && |counted| - i <= HISTORY_SIZE
    ensures counted[i] in Recent(counted)
  {
    var skip := |counted| - |Recent(counted)|;
    assert Recent(counted)[i - skip] == counted[i];
  }

  lemma CountSpaces(counted: seq<Key>, key: Key)
    requires Spaced(counted)
    ensures Spaced(Count(counted, key))
  {
    if Count(counted, key) != counted {
      forall i | 0 <= i < |counted| && counted[i] == key ensures |counted| - i > HISTORY_SIZE {
        if |counted| - i <= HISTORY_SIZE { RecentAt(counted, i); }
      }
    }
  }

  /** Whatever is reported, a key is counted again only after enough other keys. */
  lemma {:induction false} CountsAreSpaced(keys: seq<Key>)
    ensures Spaced(CountAll(keys))
  {
    if keys != [] {
      CountsAreSpaced(keys[..|keys| - 1]);
      CountSpaces(CountAll(keys[..|keys| - 1]), keys[|keys| - 1]);
    }
  }

  lemma RecentIff(counted: seq<Key>, key: Key)
    ensures key in Recent(counted) <==>
              exists i :: 0 <= i < |counted| && |counted| - i <= HISTORY_SIZE && counted[i] == key
  {
    if key in Recent(counted) {
      var k :| 0 <= k < |Recent(counted)| && Recent(counted)[k] == key;
      var i := |counted| - |Recent(counted)| + k;
      assert counted[i] == key;
    }
    if i :| 0 <= i < |counted| && |counted| - i <= HISTORY_SIZE && counted[i] == key {
      RecentAt(counted, i);
    }
  }

  /** A report is counted exactly if both its ids are there and not too long, and the key is none
      of the last counted ones. */
  lemma CountedUnlessRecent(keys: seq<Key>, key: Key)
    ensures var counted, s, r := CountAll(keys), |key.session|, |key.request|;
      CountAll(keys + [key]) ==
        if 0 < s <= 256 && 0 < r <= 256 &&
           forall i :: 0 <= i < |counted| && |counted| - i <= 8192 ==> counted[i] != key
        then counted + [key] else counted
  {
    var more := keys + [key];
    assert more[..|more| - 1] == keys && more[|more| - 1] == key;
    RecentIff(CountAll(keys), key);
    hide Recent;
  }

  /** Every acceptable key that is reported has been counted, and no other. */
  lemma {:induction false} ReportedAreCounted(keys: seq<Key>, key: Key)
    ensures key in CountAll(keys) <==>
              key in keys && key.session != [] && key.request != [] && |key.session| <= 256 && |key.request| <= 256
  {
    if keys != [] {
      var last := |keys| - 1;
      ReportedAreCounted(keys[..last], key);
      assert keys == keys[..last] + [keys[last]];
      if keys[last] in Recent(CountAll(keys[..last])) { RecentIff(CountAll(keys[..last]), keys[last]); }
      hide Recent;
    }
  }

  lemma RecentDistinct(counted: seq<Key>)
    requires Spaced(counted)
    ensures forall i, j :: 0 <= i < j < |Recent(counted)| ==> Recent(counted)[i] != Recent(counted)[j]
  {}

  /** The ring holds the recent keys: from the start until it is full, then oldest at next. */
  predicate Holds(ring: seq<Key>, next: nat, counted: seq<Key>) {
    && |ring| == HISTORY_SIZE && next < HISTORY_SIZE
    && if |counted| < HISTORY_SIZE then
         next == |counted| && ring[..next] == counted && forall i :: next <= i < HISTORY_SIZE ==> ring[i] == EMPTY
       else ring[next..] + ring[..next] == Recent(counted)
  }

  function Advance(next: nat): nat {
    (next + 1) % HISTORY_SIZE
  }

  lemma AdvanceIs(next: nat)
    requires next < HISTORY_SIZE
    ensures Advance(next) == if next + 1 == HISTORY_SIZE then 0 else next + 1
  {}

  lemma RecentMoves(counted: seq<Key>, key: Key)
    ensures Recent(counted + [key]) ==
      if |counted| < HISTORY_SIZE then counted + [key] else Recent(counted)[1..] + [key]
  {}

  /** Overwriting the oldest of a full ring. */
  lemma Rotates(ring: seq<Key>, next: nat, key: Key)
    requires next < |ring|
    ensures var later, order := ring[next := key], ring[next..] + ring[..next];
      && (next + 1 < |ring| ==> later[next + 1..] + later[..next + 1] == order[1..] + [key])
      && (next + 1 == |ring| ==> later[0..] + later[..0] == order[1..] + [key])
  {
    var later := ring[next := key];
    assert later[next + 1..] == ring[next + 1..];
    assert later[..next + 1] == ring[..next] + [key];
    assert (ring[next..] + ring[..next])[1..] == ring[next + 1..] + ring[..next];
    if next + 1 == |ring| { assert later[0..] + later[..0] == later[..next + 1]; }
  }

  lemma RingTurns(ring: seq<Key>, next: nat, counted: seq<Key>, key: Key)
    requires Holds(ring, next, counted)
    ensures Holds(ring[next := key], Advance(next), counted + [key])
  {
    AdvanceIs(next);
    RecentMoves(counted, key);
    hide Advance, Recent;
    if |counted| < HISTORY_SIZE { RingFills(ring, next, counted, key); } else { Rotates(ring, next, key); }
  }

  lemma RingFills(ring: seq<Key>, next: nat, counted: seq<Key>, key: Key)
    requires Holds(ring, next, counted) && |counted| < HISTORY_SIZE
    ensures Holds(ring[next := key], Advance(next), counted + [key])
  {
    var later := ring[next := key];
    AdvanceIs(next);
    RecentMoves(counted, key);
    assert later[..next + 1] == ring[..next] + [key] == counted + [key];
    hide Advance, Recent;
    if next + 1 == HISTORY_SIZE { assert later[0..] + later[..0] == later[..next + 1]; }
  }

  ghost predicate AreSeen(seen: set<Key>, counted: seq<Key>) {
    forall k :: k in seen <==> k in Recent(counted)
  }

  /** A list without repetitions loses its first element and gains one at the end. */
  lemma Shifts(list: seq<Key>, key: Key, k: Key)
    requires list != [] && forall i, j :: 0 <= i < j < |list| ==> list[i] != list[j]
    ensures k in list[1..] + [key] <==> k == key || (k in list && k != list[0])
  {
    if k in list && k != list[0] {
      var i :| 0 <= i < |list| && list[i] == k;
      assert list[1..][i - 1] == k;
    }
    if k in list[1..] {
      var i :| 0 <= i < |list[1..]| && list[1..][i] == k;
      assert list[i + 1] == k;
    }
  }

  lemma OldestAtNext(ring: seq<Key>, next: nat, counted: seq<Key>)
    requires Holds(ring, next, counted)
    ensures if |counted| < HISTORY_SIZE then ring[next] == EMPTY && Recent(counted) == counted
            else Recent(counted) != [] && ring[next] == Recent(counted)[0]
  {
    if |counted| >= HISTORY_SIZE { assert (ring[next..] + ring[..next])[0] == ring[next]; }
  }

  /** What the ring overwrites is what seen forgets. */
  lemma SeenMoves(ring: seq<Key>, next: nat, counted: seq<Key>, seen: set<Key>, key: Key)
    requires Holds(ring, next, counted) && AreSeen(seen, counted) && Spaced(counted) && EMPTY !in counted
    ensures AreSeen(seen - {ring[next]} + {key}, counted + [key])
  {
    OldestAtNext(ring, next, counted);
    RecentMoves(counted, key);
    RecentDistinct(counted);
    hide Recent, Holds, Spaced;
    if |counted| >= HISTORY_SIZE {
      forall k { Shifts(Recent(counted), key, k); }
    }
  }

  lemma NotCounted(counted: seq<Key>, seen: set<Key>, key: Key)
    requires AreSeen(seen, counted)
    requires key in seen || key.session == [] || key.request == [] || |key.session| > MAX_ID || |key.request| > MAX_ID
    ensures Count(counted, key) == counted
  {
    hide Recent;
  }

  lemma NewlyCounted(ring: seq<Key>, next: nat, counted: seq<Key>, seen: set<Key>, key: Key)
    requires Holds(ring, next, counted) && AreSeen(seen, counted) && Spaced(counted) && EMPTY !in counted
    requires key !in seen && key.session != [] && key.request != []
    requires |key.session| <= MAX_ID && |key.request| <= MAX_ID
    ensures next < |ring|
    ensures Count(counted, key) == counted + [key]
    ensures Spaced(counted + [key]) && EMPTY !in counted + [key]
    ensures Holds(ring[next := key], Advance(next), counted + [key])
    ensures AreSeen(seen - {ring[next]} + {key}, counted + [key])
  {
    CountSpaces(counted, key);
    RingTurns(ring, next, counted, key);
    SeenMoves(ring, next, counted, seen, key);
    assert Count(counted, key) == counted + [key] by { hide Holds, Recent, Spaced, Advance; }
    hide Recent, Spaced, AreSeen, Advance, Count;
  }

  /** The non-empty slots are exactly the keys seen. */
  lemma SlotsAreSeen(ring: seq<Key>, next: nat, counted: seq<Key>, seen: set<Key>)
    requires Holds(ring, next, counted) && AreSeen(seen, counted) && EMPTY !in counted
    ensures forall k :: k in seen <==> k != EMPTY && k in ring
  {
    assert ring == ring[..next] + ring[next..];
    forall k | k in seen ensures k != EMPTY && k in ring {
      var i :| 0 <= i < |Recent(counted)| && Recent(counted)[i] == k;
      assert k in counted;
    }
    forall k | k != EMPTY && k in ring ensures k in seen {
      var i :| 0 <= i < |ring| && ring[i] == k;
      if |counted| < HISTORY_SIZE { assert ring[..next][i] == k; }
    }
  }

  /** No key has two slots. */
  lemma SlotsDistinct(ring: seq<Key>, next: nat, counted: seq<Key>)
    requires Holds(ring, next, counted) && Spaced(counted) && EMPTY !in counted
    ensures forall i, j :: 0 <= i < j < HISTORY_SIZE && ring[i] != EMPTY ==> ring[i] != ring[j]
  {
    RecentDistinct(counted);
    var recent := Recent(counted);
    forall i, j | 0 <= i < j < HISTORY_SIZE && ring[i] != EMPTY ensures ring[i] != ring[j] {
      if |counted| < HISTORY_SIZE {
        assert ring[..next][i] == recent[i];
        if j < next { assert ring[..next][j] == recent[j]; }
      } else {
        var a := if i < next then HISTORY_SIZE - next + i else i - next;
        var b := if j < next then HISTORY_SIZE - next + j else j - next;
        assert recent[a] == ring[i] && recent[b] == ring[j];
        if a < b { assert recent[a] != recent[b]; } else { assert recent[b] != recent[a]; }
      }
    }
  }

  class NetworkCounters {
    var resets: nat
    var completed: nat
    var seen: set<Key>
    const history: array<Key>
    var next: nat
    ghost var counted: seq<Key>

    ghost predicate Valid()
      reads this, history
    {
      && resets <= completed && Spaced(counted) && EMPTY !in counted && AreSeen(seen, counted)
      && Holds(history[..], next, counted)
    }

    constructor ()
      ensures Valid() && counted == [] && resets == 0 && completed == 0 && fresh(history)
    {
      resets, completed, seen, next, counted := 0, 0, {}, 0, [];
      history := new Key[HISTORY_SIZE](_ => EMPTY);
    }

    method Terminal(session: Text, request: Text, errorText: string)
      requires Valid()
      modifies this, history
      ensures Valid()
      ensures counted == Count(old(counted), Key(session, request))
      ensures completed == old(completed) + |counted| - |old(counted)|
      ensures resets ==
        if counted != old(counted) && errorText == CONNECTION_RESET then old(resets) + 1 else old(resets)
    {
      ghost var k := Key(session, request);
      assert next < history.Length;
      hide Holds, AreSeen, Spaced, Count, Recent, IsAcceptable;
      if session == [] || request == [] || |session| > MAX_ID || |request| > MAX_ID {
        NotCounted(counted, seen, k);
        return;
      }
      var key := Key(session, request);
      if key in seen {
        NotCounted(counted, seen, key);
        return;
      }
      ghost var ring := history[..];
      NewlyCounted(ring, next, counted, seen, key);
      seen := seen - {history[next]};
      history[next] := key;
      assert history[..] == ring[next := key];
      next := Advance(next);
      seen := seen + {key};
      counted := counted + [key];
      completed := completed + 1;
      if errorText == CONNECTION_RESET { resets := resets + 1; }
    }

    method NewGeneration()
      requires Valid()
      modifies this, history
      ensures Valid() && counted == [] && seen == {}
      ensures resets == old(resets) && completed == old(completed)
    {
      seen := {};
      forall i | 0 <= i < history.Length { history[i] := EMPTY; }
      next, counted := 0, [];
    }
  }
}
