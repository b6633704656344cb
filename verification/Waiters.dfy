/** The waiter table of internal/daemon/daemon.go: first as functions on values, then as the mutable
    table of Go slices, whose backing arrays are spliced in place while a notifier may still hold a
    slice header outside the mutex. */
module Waiters {

  // The keys are runKey strings; nothing here looks inside one.
  type Table<K(==), T> = map<K, seq<T>>

  function Subs<K, T>(t: Table<K, T>, key: K): seq<T> {
    if key in t then t[key] else []
  }

  /** Drops the first occurrence. */
  function Remove<T(==)>(s: seq<T>, c: T): (r: seq<T>) {
    if s == [] then []
    else if s[0] == c then s[1..]
    else [s[0]] + Remove(s[1..], c)
  }

  function Subscribed<K, T>(t: Table<K, T>, key: K, c: T): Table<K, T> {
    t[key := Subs(t, key) + [c]]
  }

  function Unsubscribed<K, T(==)>(t: Table<K, T>, key: K, c: T): Table<K, T> {
    var rest := Remove(Subs(t, key), c);
    if rest == [] then t - {key} else t[key := rest]
  }

  function Taken<K, T>(t: Table<K, T>, key: K): Table<K, T> {
    t - {key}
  }

  lemma {:induction false} RemoveAt<T>(s: seq<T>, i: nat)
    requires i < |s|
    requires forall j :: 0 <= j < i ==> s[j] != s[i]
    ensures Remove(s, s[i]) == s[..i] + s[i + 1..]
  {
    if i == 0 {
    } else {
      RemoveAt(s[1..], i - 1);
      assert s[..i] == [s[0]] + s[1..][..i - 1];
    }
  }

  lemma {:induction false} RemoveAbsent<T>(s: seq<T>, c: T)
    requires c !in s
    ensures Remove(s, c) == s
  {
    if s == [] {
    } else {
      RemoveAbsent(s[1..], c);
    }
  }

  predicate Distinct<T(==)>(s: seq<T>) {
    forall i, j :: 0 <= i < j < |s| ==> s[i] != s[j]
  }

  /** Removing from a duplicate-free sequence removes exactly that element. */
  lemma {:induction false} RemoveDistinct<T>(s: seq<T>, c: T)
    requires Distinct(s)
    ensures Distinct(Remove(s, c))
    ensures forall x :: x in Remove(s, c) <==> x in s && x != c
  {
    if s == [] {
    } else {
      RemoveDistinct(s[1..], c);
      var r := Remove(s, c);
      if s[0] == c {
        assert forall x :: x in s <==> x == s[0] || x in s[1..];
      } else {
        assert forall x :: x in s <==> x == s[0] || x in s[1..];
        assert r == [s[0]] + Remove(s[1..], c);
        assert s[0] !in Remove(s[1..], c);
      }
    }
  }

  /** No channel is listed twice, within an entry or across entries, and no entry is empty. */
  ghost predicate EachOnce<K, T>(t: Table<K, T>) {
    && (forall k :: k in t ==> t[k] != [] && Distinct(t[k]))
    && (forall k, l, c :: k in t && l in t && c in t[k] && c in t[l] ==> k == l)
  }

  ghost predicate Listed<K, T>(t: Table<K, T>, c: T) {
    exists k :: k in t && c in t[k]
  }

  lemma SubscribedOnce<K, T>(t: Table<K, T>, key: K, c: T)
    requires EachOnce(t) && !Listed(t, c)
    ensures EachOnce(Subscribed(t, key, c))
    ensures forall k, x :: x in Subs(Subscribed(t, key, c), k) <==> x in Subs(t, k) || (k == key && x == c)
  {
    var u := Subscribed(t, key, c);
    assert c !in Subs(t, key);
    assert forall k :: k != key ==> Subs(u, k) == Subs(t, k);
    assert forall x :: x in u[key] <==> x in Subs(t, key) || x == c;
    forall k, l, x | k in u && l in u && x in u[k] && x in u[l] ensures k == l {
      assert x in Subs(t, k) || (k == key && x == c);
      assert x in Subs(t, l) || (l == key && x == c);
    }
  }

  lemma UnsubscribedOnce<K, T>(t: Table<K, T>, key: K, c: T)
    requires EachOnce(t)
    ensures EachOnce(Unsubscribed(t, key, c))
    ensures forall k, x :: x in Subs(Unsubscribed(t, key, c), k) <==> x in Subs(t, k) && !(k == key && x == c)
  {
    var u := Unsubscribed(t, key, c);
    RemoveDistinct(Subs(t, key), c);
    assert forall k :: k != key ==> Subs(u, k) == Subs(t, k);
    assert Subs(u, key) == Remove(Subs(t, key), c);
    forall k, l, x | k in u && l in u && x in u[k] && x in u[l] ensures k == l {
      assert x in Subs(t, k) && x in Subs(t, l);
    }
  }

  // ---- one place for every channel ----

  /** What is listed, what each notify call in flight has still to close, and which channels are open and
      which closed. */
  datatype Books<K(==), T(==)> = Books(table: Table<K, T>, pending: map<nat, seq<T>>, open: set<T>, shut: set<T>)

  /** The calls, each cut where it leaves the mutex: a notify takes, closes one by one, and returns. */
  datatype Act<+K, +T> =
    | DoSubscribe(key: K, ch: T)
    | DoUnsubscribe(key: K, ch: T)
    | DoTake(n: nat, key: K)
    | DoClose(n: nat)
    | DoReturn(n: nat)

  predicate CanDo<K, T>(b: Books<K, T>, step: Act<K, T>) {
    match step
    case DoSubscribe(_, ch) => ch !in b.open && ch !in b.shut
    case DoUnsubscribe(_, _) => true
    case DoTake(n, _) => n !in b.pending
    case DoClose(n) => n in b.pending && b.pending[n] != []
    case DoReturn(n) => n in b.pending && b.pending[n] == []
  }

  function Do<K, T>(b: Books<K, T>, step: Act<K, T>): Books<K, T>
    requires CanDo(b, step)
  {
    match step
    case DoSubscribe(key, ch) => b.(table := Subscribed(b.table, key, ch), open := b.open + {ch})
    case DoUnsubscribe(key, ch) => b.(table := Unsubscribed(b.table, key, ch))
    case DoTake(n, key) => b.(table := Taken(b.table, key), pending := b.pending[n := Subs(b.table, key)])
    case DoClose(n) =>
      var ch := b.pending[n][0];
      b.(pending := b.pending[n := b.pending[n][1..]], open := b.open - {ch}, shut := b.shut + {ch})
    case DoReturn(n) => b.(pending := b.pending - {n})
  }

  /** Every channel that is listed or still to be closed is open, and in one place only. */
  ghost predicate Sound<K, T>(b: Books<K, T>) {
    && EachOnce(b.table)
    && (forall k, c :: k in b.table && c in b.table[k] ==> c in b.open)
    && (forall n :: n in b.pending ==> Distinct(b.pending[n]))
    && (forall n, c :: n in b.pending && c in b.pending[n] ==> c in b.open && !Listed(b.table, c))
    && (forall n, m, c :: n in b.pending && m in b.pending && c in b.pending[n] && c in b.pending[m] ==> n == m)
    && b.open !! b.shut
  }

  lemma SoundSubscribe<K, T>(b: Books<K, T>, key: K, c: T)
    requires Sound(b) && CanDo(b, DoSubscribe(key, c))
    ensures Sound(Do(b, DoSubscribe(key, c)))
  {
    SubscribedOnce(b.table, key, c);
    var u := Subscribed(b.table, key, c);
    forall x ensures Listed(u, x) ==> Listed(b.table, x) || x == c {
      if Listed(u, x) {
        var k :| k in u && x in u[k];
        assert x in Subs(u, k);
      }
    }
    forall k, x | k in u && x in u[k] ensures x in b.open + {c} {
      assert x in Subs(u, k);
    }
  }

  lemma SoundUnsubscribe<K, T>(b: Books<K, T>, key: K, c: T)
    requires Sound(b)
    ensures Sound(Do(b, DoUnsubscribe(key, c)))
  {
    UnsubscribedOnce(b.table, key, c);
    var u := Unsubscribed(b.table, key, c);
    forall k, x | k in u && x in u[k] ensures k in b.table && x in b.table[k] {
      assert x in Subs(u, k) && x in Subs(b.table, k);
    }
    forall x | Listed(u, x) ensures Listed(b.table, x) {
      var k :| k in u && x in u[k];
      assert k in b.table && x in b.table[k];
    }
  }

  lemma SoundTake<K, T>(b: Books<K, T>, n: nat, key: K)
    requires Sound(b) && CanDo(b, DoTake(n, key))
    ensures Sound(Do(b, DoTake(n, key)))
  {
    var u := Taken(b.table, key);
    forall x | Listed(u, x) ensures Listed(b.table, x) && x !in Subs(b.table, key) {
      var k :| k in u && x in u[k];
    }
    assert forall x :: x in Subs(b.table, key) ==> Listed(b.table, x);
  }

  lemma SoundClose<K, T>(b: Books<K, T>, n: nat)
    requires Sound(b) && CanDo(b, DoClose(n))
    ensures b.pending[n][0] in b.open
    ensures Sound(Do(b, DoClose(n)))
  {
    var c := b.pending[n][0];
    assert c in b.pending[n] && !Listed(b.table, c);
    assert forall x :: x in b.pending[n][1..] ==> x in b.pending[n] && x != c;
  }

  lemma DoSound<K, T>(b: Books<K, T>, step: Act<K, T>)
    requires Sound(b) && CanDo(b, step)
    ensures Sound(Do(b, step))
  {
    match step {
      case DoSubscribe(key, ch) => SoundSubscribe(b, key, ch);
      case DoUnsubscribe(key, ch) => SoundUnsubscribe(b, key, ch);
      case DoTake(n, key) => SoundTake(b, n, key);
      case DoClose(n) => SoundClose(b, n);
      case DoReturn(_) =>
    }
  }

  // ---- any sequence of calls ----

  predicate History<K(==), T(==)>(b: Books<K, T>, steps: seq<Act<K, T>>, end: Books<K, T>)
    decreases |steps|
  {
    if steps == [] then b == end else CanDo(b, steps[0]) && History(Do(b, steps[0]), steps[1..], end)
  }

  lemma {:induction false} HistorySound<K, T>(b: Books<K, T>, steps: seq<Act<K, T>>, end: Books<K, T>)
    requires Sound(b) && History(b, steps, end)
    ensures Sound(end)
    decreases |steps|
  {
    if steps == [] {
    } else {
      DoSound(b, steps[0]);
      HistorySound(Do(b, steps[0]), steps[1..], end);
    }
  }

  lemma {:induction false} HistorySnoc<K, T>(b: Books<K, T>, steps: seq<Act<K, T>>, mid: Books<K, T>, step: Act<K, T>)
    requires History(b, steps, mid) && CanDo(mid, step)
    ensures History(b, steps + [step], Do(mid, step))
    decreases |steps|
  {
    if steps == [] {
      assert [step][1..] == [];
    } else {
      assert (steps + [step])[1..] == steps[1..] + [step];
      HistorySnoc(Do(b, steps[0]), steps[1..], mid, step);
    }
  }

  /** What the calls that touch the table make of it; closing and returning do not. */
  function TableAfter<K, T(==)>(t: Table<K, T>, steps: seq<Act<K, T>>): Table<K, T>
    decreases |steps|
  {
    if steps == [] then t
    else
      var u := match steps[0]
        case DoSubscribe(key, ch) => Subscribed(t, key, ch)
        case DoUnsubscribe(key, ch) => Unsubscribed(t, key, ch)
        case DoTake(_, key) => Taken(t, key)
        case _ => t;
      TableAfter(u, steps[1..])
  }

  /** The channels notifier n closes, in order. */
  function ClosedBy<K, T>(b: Books<K, T>, steps: seq<Act<K, T>>, n: nat): seq<T>
    decreases |steps|
  {
    if steps == [] || !CanDo(b, steps[0]) then []
    else (if steps[0] == DoClose(n) then [b.pending[n][0]] else []) + ClosedBy(Do(b, steps[0]), steps[1..], n)
  }

  /** A notifier in the middle of its loop: whatever the others do before it returns, it closes exactly
      what it had left, in order, and nobody else closes any of it. */
  lemma {:induction false} ClosesWhatIsLeft<K, T>(b: Books<K, T>, steps: seq<Act<K, T>>, end: Books<K, T>, n: nat)
    requires Sound(b) && n in b.pending && History(b, steps, end) && DoReturn(n) !in steps
    ensures n in end.pending && b.pending[n] == ClosedBy(b, steps, n) + end.pending[n]
    ensures end.table == TableAfter(b.table, steps)
    decreases |steps|
  {
    if steps == [] {
    } else {
      var next := Do(b, steps[0]);
      DoSound(b, steps[0]);
      ClosesWhatIsLeft(next, steps[1..], end, n);
      Regrouped(b, steps, end, n);
    }
  }

  lemma {:induction false} Regrouped<K, T>(b: Books<K, T>, steps: seq<Act<K, T>>, end: Books<K, T>, n: nat)
    requires steps != [] && n in b.pending && CanDo(b, steps[0]) && steps[0] != DoReturn(n)
    requires var next := Do(b, steps[0]);
             n in next.pending && n in end.pending && next.pending[n] == ClosedBy(next, steps[1..], n) + end.pending[n]
    ensures b.pending[n] == ClosedBy(b, steps, n) + end.pending[n]
  {
    var rest := ClosedBy(Do(b, steps[0]), steps[1..], n);
    if steps[0] == DoClose(n) {
      assert b.pending[n] == [b.pending[n][0]] + (rest + end.pending[n]);
    } else {
      assert b.pending[n] == rest + end.pending[n];
    }
  }

  /** notify under any interleaving: between taking the header and returning, whatever the others do
      before, between and after its closes, it closes exactly the channels listed when it took it, in
      order; afterwards none of them is open, listed or left to anyone; and of the table it changes its
      own entry only. */
  lemma NotifyClosesExactly<K, T>(b: Books<K, T>, n: nat, key: K, between: seq<Act<K, T>>, last: Books<K, T>)
    requires Sound(b) && CanDo(b, DoTake(n, key)) && DoReturn(n) !in between
    requires History(Do(b, DoTake(n, key)), between, last) && CanDo(last, DoReturn(n))
    ensures var taken := Do(b, DoTake(n, key)); var end := Do(last, DoReturn(n));
            && ClosedBy(taken, between, n) == Subs(b.table, key)
            && Sound(end) && end.table == TableAfter(Taken(b.table, key), between)
            && forall c :: c in Subs(b.table, key) ==> c in end.shut && !Listed(end.table, c)
  {
    var taken := Do(b, DoTake(n, key));
    SoundTake(b, n, key);
    ClosesWhatIsLeft(taken, between, last, n);
    HistorySound(taken, between, last);
    DoSound(last, DoReturn(n));
    forall c | c in Subs(b.table, key) ensures c in last.shut {
      ClosedStaysShut(taken, between, last, n, c);
    }
    assert forall c :: c in last.shut ==> c !in last.open;
    forall c | c in Subs(b.table, key) ensures !Listed(last.table, c) {
      assert Listed(last.table, c) ==> c in last.open;
    }
  }

  lemma {:induction false} ShutStays<K, T>(b: Books<K, T>, steps: seq<Act<K, T>>, end: Books<K, T>)
    requires History(b, steps, end)
    ensures b.shut <= end.shut
    decreases |steps|
  {
    if steps == [] {
    } else {
      ShutStays(Do(b, steps[0]), steps[1..], end);
    }
  }

  lemma {:induction false} ClosedStaysShut<K, T>(b: Books<K, T>, steps: seq<Act<K, T>>, end: Books<K, T>, n: nat, c: T)
    requires History(b, steps, end) && c in ClosedBy(b, steps, n)
    ensures c in end.shut
    decreases |steps|
  {
    if steps == [] {
    } else {
      var next := Do(b, steps[0]);
      if c in ClosedBy(next, steps[1..], n) {
        ClosedStaysShut(next, steps[1..], end, n, c);
      } else {
        ShutStays(next, steps[1..], end);
      }
    }
  }

  class Chan {
    var closed: bool

    constructor ()
      ensures !closed
    {
      closed := false;
    }

    /** Go's close, which panics on a closed channel. */
    method Close()
      requires !closed
      modifies this
      ensures closed
    {
      closed := true;
    }
  }

  /** A Go slice header: the backing array and the length; the capacity is the array's. */
  datatype Slice = Slice(arr: array<Chan?>, len: nat)

  /** Go's append of one element: in place while the capacity lasts, else into a larger fresh array. */
  method Append(s: Slice, ch: Chan) returns (r: Slice)
    requires s.len <= s.arr.Length
    modifies s.arr
    ensures r.len == s.len + 1 <= r.arr.Length
    ensures r.arr[..r.len] == old(s.arr[..s.len]) + [ch]
    ensures r.arr == s.arr || fresh(r.arr)
  {
    r := s;
    if s.len == s.arr.Length {
      var bigger := new Chan?[2 * s.arr.Length + 1](_ => null);
      for i := 0 to s.len
        invariant forall j :: 0 <= j < i ==> bigger[j] == s.arr[j]
        invariant unchanged(s.arr)
      {
        bigger[i] := s.arr[i];
      }
      r := Slice(bigger, s.len);
    }
    assert r.arr[..s.len] == old(s.arr[..s.len]);
    r.arr[s.len] := ch;
    r := Slice(r.arr, s.len + 1);
  }

  /** Go's append(s[:i], s[i+1:]...): shifts the tail down in place; the last slot keeps its stale
      pointer beyond the new length. */
  method SpliceOut(s: Slice, i: nat) returns (r: Slice)
    requires i < s.len <= s.arr.Length
    modifies s.arr
    ensures r == Slice(s.arr, s.len - 1)
    ensures r.arr[..r.len] == old(s.arr[..i] + s.arr[i + 1..s.len])
  {
    ghost var was := s.arr[..];
    var j := i;
    while j + 1 < s.len
      invariant i <= j < s.len
      invariant s.arr[..i] == was[..i]
      invariant s.arr[i..j] == was[i + 1..j + 1]
      invariant s.arr[j + 1..] == was[j + 1..]
    {
      assert s.arr[j + 1] == s.arr[j + 1..][0] == was[j + 1];
      assert s.arr[j + 2..] == s.arr[j + 1..][1..] == was[j + 2..];
      s.arr[j] := s.arr[j + 1];
      j := j + 1;
    }
    assert s.arr[..s.len - 1] == s.arr[..i] + s.arr[i..s.len - 1];
    r := Slice(s.arr, s.len - 1);
  }

  /** The scan-and-splice loop of unsubscribe: removes the first occurrence in place, if any. */
  method Cut(s: Slice, ch: Chan) returns (r: Slice)
    requires s.len <= s.arr.Length
    modifies s.arr
    ensures r.arr == s.arr && r.len <= s.len
    ensures r.arr[..r.len] == Remove(old(s.arr[..s.len]), ch)
  {
    ghost var was := s.arr[..s.len];
    var i := 0;
    while i < s.len && s.arr[i] != ch
      invariant 0 <= i <= s.len
      invariant forall j :: 0 <= j < i ==> s.arr[j] != ch
    {
      i := i + 1;
    }
    if i == s.len {
      RemoveAbsent(was, ch);
      return s;
    }
    RemoveAt(was, i);
    assert was[..i] == s.arr[..i] && was[i + 1..] == s.arr[i + 1..s.len];
    r := SpliceOut(s, i);
  }

  /** The local variables of a notify call in flight: the header it took, and how many of its channels it
      has closed. */
  datatype Notifier = Notifier(subs: Slice, next: nat)

  class Registry<K(==)> {
    var waiters: map<K, Slice>
    var notifiers: map<nat, Notifier>
    // What all of it says, as values: see Ledger.
    ghost var table: Table<K, Chan?>
    ghost var pending: map<nat, seq<Chan?>>
    ghost var open: set<Chan?>
    ghost var shut: set<Chan?>
    // The key that owns each backing array of the table.
    ghost var owner: map<array<Chan?>, K>

    ghost function Ledger(): Books<K, Chan?>
      reads this`table, this`pending, this`open, this`shut
    {
      Books(table, pending, open, shut)
    }

    /** No backing array is shared between keys, and no header held outside the mutex points into
        the table. */
    ghost predicate Unshared()
      reads this`waiters, this`notifiers, this`owner
    {
      && (forall k :: k in waiters ==> waiters[k].arr in owner && owner[waiters[k].arr] == k)
      && (forall n :: n in notifiers ==> notifiers[n].subs.arr !in owner)
    }

    ghost predicate Describes(k: K)
      reads this`waiters, this`owner, this`table, owner.Keys
    {
      k in waiters && waiters[k].arr in owner ==>
        var s := waiters[k];
        s.len <= s.arr.Length && k in table && table[k] == s.arr[..s.len] && table[k] != []
    }

    ghost predicate TableDescribed()
      reads this`waiters, this`notifiers, this`owner, this`table, owner.Keys
    {
      Unshared() && table.Keys == waiters.Keys && forall k :: k in waiters ==> Describes(k)
    }

    ghost function Headers(): set<array<Chan?>>
      reads this`notifiers
    {
      set n | n in notifiers :: notifiers[n].subs.arr
    }

    /** What is left of each header is what its notifier has still to close. */
    ghost predicate HeadersDescribed()
      reads this`notifiers, this`pending, Headers()
    {
      && notifiers.Keys == pending.Keys
      && forall n :: n in notifiers ==>
           var v := notifiers[n];
           v.next <= v.subs.len <= v.subs.arr.Length && pending[n] == v.subs.arr[v.next..v.subs.len]
    }

    ghost predicate FlagsDescribed()
      reads this`open, this`shut, open, shut
    {
      null !in open && null !in shut && (forall c :: c in open ==> !c.closed) && forall c :: c in shut ==> c.closed
    }

    ghost predicate Shape()
      reads this, owner.Keys, Headers(), open, shut
    {
      TableDescribed() && HeadersDescribed() && FlagsDescribed()
    }

    ghost predicate Valid()
      reads this, owner.Keys, Headers(), open, shut
    {
      Shape() && Sound(Ledger())
    }

    constructor ()
      ensures Valid() && Ledger() == Books(map[], map[], {}, {}) && owner == map[]
    {
      waiters, notifiers, owner := map[], map[], map[];
      table, pending, open, shut := map[], map[], {}, {};
    }

    /** The header stored under a key; a missing entry reads as Go's nil slice. */
    method Lookup(key: K) returns (s: Slice)
      requires TableDescribed()
      ensures s.len <= s.arr.Length && s.arr[..s.len] == Subs(table, key)
      ensures if key in waiters then s == waiters[key] else fresh(s.arr)
    {
      if key in waiters {
        s := waiters[key];
      } else {
        var none := new Chan?[0];
        s := Slice(none, 0);
      }
    }

    /** d.waiters[key] = s, for a header on the key's own array or a fresh one. */
    method Put(key: K, s: Slice)
      requires Unshared() && table.Keys == waiters.Keys && 0 < s.len <= s.arr.Length
      requires forall k :: k in waiters && k != key ==> Describes(k)
      requires s.arr in owner ==> owner[s.arr] == key
      requires s.arr !in Headers()
      modifies this`waiters, this`table, this`owner
      ensures TableDescribed()
      ensures owner == old(owner)[s.arr := key] && table == old(table)[key := s.arr[..s.len]]
    {
      owner := owner[s.arr := key];
      waiters := waiters[key := s];
      table := table[key := s.arr[..s.len]];
    }

    /** delete(d.waiters, key). */
    method Drop(key: K)
      requires Unshared() && table.Keys == waiters.Keys
      requires forall k :: k in waiters && k != key ==> Describes(k)
      modifies this`waiters, this`table
      ensures TableDescribed() && table == old(table) - {key}
    {
      waiters := waiters - {key};
      table := table - {key};
    }

    /** Stores the header, or deletes the entry of an emptied slice. */
    method Store(key: K, s: Slice)
      requires Unshared() && table.Keys == waiters.Keys && s.len <= s.arr.Length
      requires forall k :: k in waiters && k != key ==> Describes(k)
      requires s.arr in owner ==> owner[s.arr] == key
      requires s.arr !in Headers()
      modifies this`waiters, this`table, this`owner
      ensures TableDescribed() && (owner == old(owner) || owner == old(owner)[s.arr := key])
      ensures table == if s.len == 0 then old(table) - {key} else old(table)[key := s.arr[..s.len]]
    {
      if s.len == 0 {
        Drop(key);
      } else {
        Put(key, s);
      }
    }

    /** append(d.waiters[key], ch). */
    method Grow(key: K, ch: Chan) returns (s: Slice)
      requires TableDescribed() && HeadersDescribed()
      modifies owner.Keys
      ensures Unshared() && HeadersDescribed() && s.arr !in Headers()
      ensures forall k :: k in waiters && k != key ==> Describes(k)
      ensures if s.arr in owner then owner[s.arr] == key else fresh(s.arr)
      ensures 0 < s.len <= s.arr.Length && s.arr[..s.len] == Subs(table, key) + [ch]
    {
      s := Lookup(key);
      s := Append(s, ch);
    }

    /** d.waiters[key] = append(d.waiters[key], ch). */
    method Enlist(key: K, ch: Chan)
      requires TableDescribed() && HeadersDescribed()
      modifies this`waiters, this`table, this`owner, owner.Keys
      ensures TableDescribed() && HeadersDescribed() && fresh(owner.Keys - old(owner.Keys))
      ensures table == Subscribed(old(table), key, ch)
    {
      var s := Grow(key, ch);
      Store(key, s);
    }

    /** A new channel counts as open. */
    ghost method Admit(ch: Chan)
      requires FlagsDescribed() && !ch.closed
      modifies this`open
      ensures FlagsDescribed() && open == old(open) + {ch}
    {
      open := open + {ch};
    }

    /** make(chan), then append under the mutex. */
    method Make(key: K) returns (ch: Chan)
      requires Shape()
      modifies this`waiters, this`table, this`owner, this`open, owner.Keys
      ensures Shape() && fresh(ch) && fresh(owner.Keys - old(owner.Keys))
      ensures table == Subscribed(old(table), key, ch) && open == old(open) + {ch} && ch !in old(open) + shut
    {
      ch := new Chan();
      Enlist(key, ch);
      assert FlagsDescribed() && ch !in old(open) + shut;
      Admit(ch);
    }

    method Subscribe(key: K) returns (ch: Chan)
      requires Valid()
      modifies this`waiters, this`table, this`owner, this`open, owner.Keys
      ensures Valid() && fresh(ch) && fresh(owner.Keys - old(owner.Keys))
      ensures CanDo(old(Ledger()), DoSubscribe(key, ch)) && Ledger() == Do(old(Ledger()), DoSubscribe(key, ch))
    {
      ch := Make(key);
      DoSound(old(Ledger()), DoSubscribe(key, ch));
    }

    /** Splices the first occurrence out in place and deletes an emptied entry. */
    method Delist(key: K, ch: Chan)
      requires TableDescribed() && HeadersDescribed()
      modifies this`waiters, this`table, this`owner, owner.Keys
      ensures TableDescribed() && HeadersDescribed() && fresh(owner.Keys - old(owner.Keys))
      ensures table == Unsubscribed(old(table), key, ch)
    {
      var s := Lookup(key);
      s := Cut(s, ch);
      Store(key, s);
    }

    method Unsubscribe(key: K, ch: Chan)
      requires Valid()
      modifies this`waiters, this`table, this`owner, owner.Keys
      ensures Valid() && fresh(owner.Keys - old(owner.Keys))
      ensures Ledger() == Do(old(Ledger()), DoUnsubscribe(key, ch))
    {
      Delist(key, ch);
      DoSound(old(Ledger()), DoUnsubscribe(key, ch));
    }

    /** subs := d.waiters[key]; delete(d.waiters, key). */
    method Detach(key: K) returns (subs: Slice)
      requires TableDescribed()
      modifies this`waiters, this`table, this`owner
      ensures TableDescribed() && owner.Keys <= old(owner.Keys)
      ensures subs.arr !in owner && subs.len <= subs.arr.Length && subs.arr[..subs.len] == Subs(old(table), key)
      ensures table == Taken(old(table), key)
    {
      subs := Lookup(key);
      waiters := waiters - {key};
      table := Taken(table, key);
      owner := owner - {subs.arr};
    }

    /** The notifier keeps the header in a local variable. */
    method Hold(n: nat, subs: Slice)
      requires TableDescribed() && HeadersDescribed() && n !in notifiers
      requires subs.arr !in owner && subs.len <= subs.arr.Length
      modifies this`notifiers, this`pending
      ensures TableDescribed() && HeadersDescribed()
      ensures pending == old(pending)[n := subs.arr[..subs.len]]
    {
      pending := pending[n := subs.arr[..subs.len]];
      notifiers := notifiers[n := Notifier(subs, 0)];
    }

    /** The half of notify under the mutex: take the header, delete the entry. */
    method Take(n: nat, key: K)
      requires Valid() && n !in notifiers
      modifies this`waiters, this`notifiers, this`table, this`pending, this`owner
      ensures Valid() && owner.Keys <= old(owner.Keys)
      ensures CanDo(old(Ledger()), DoTake(n, key)) && Ledger() == Do(old(Ledger()), DoTake(n, key))
    {
      var subs := Detach(key);
      Hold(n, subs);
      DoSound(old(Ledger()), DoTake(n, key));
    }

    /** Reads the next channel off the header. */
    method Next(n: nat) returns (ch: Chan?)
      requires TableDescribed() && HeadersDescribed() && n in notifiers && pending[n] != []
      modifies this`notifiers, this`pending
      ensures TableDescribed() && HeadersDescribed()
      ensures ch == old(pending[n])[0] && pending == old(pending)[n := old(pending[n])[1..]]
    {
      var v := notifiers[n];
      assert v.subs.arr[v.next] == pending[n][0];
      ch := v.subs.arr[v.next];
      pending := pending[n := pending[n][1..]];
      notifiers := notifiers[n := Notifier(v.subs, v.next + 1)];
    }

    /** Closes an open channel. */
    method Shut(ch: Chan)
      requires FlagsDescribed() && ch in open && ch !in shut
      modifies this`open, this`shut, ch
      ensures FlagsDescribed() && open == old(open) - {ch} && shut == old(shut) + {ch}
    {
      ch.Close();
      open, shut := open - {ch}, shut + {ch};
    }

    method CloseFirst(n: nat)
      requires Shape() && n in notifiers && pending[n] != [] && pending[n][0] in open && pending[n][0] !in shut
      modifies this`notifiers, this`pending, this`open, this`shut, pending[n][0]
      ensures Shape() && pending == old(pending)[n := old(pending[n])[1..]]
      ensures open == old(open) - {old(pending[n])[0]} && shut == old(shut) + {old(pending[n])[0]}
    {
      var ch := Next(n);
      Shut(ch);
    }

    /** One turn of the loop of notify outside the mutex: takes the next channel off the header and closes
        it. That it is there, and open, whatever the others have done since, is Valid. */
    method CloseNext(n: nat)
      requires Valid() && n in notifiers && pending[n] != []
      modifies this`notifiers, this`pending, this`open, this`shut, pending[n][0]
      ensures Valid()
      ensures CanDo(old(Ledger()), DoClose(n)) && Ledger() == Do(old(Ledger()), DoClose(n))
    {
      SoundClose(Ledger(), n);
      CloseFirst(n);
    }

    method Forget(n: nat)
      requires TableDescribed() && HeadersDescribed()
      modifies this`notifiers, this`pending
      ensures TableDescribed() && HeadersDescribed() && pending == old(pending) - {n}
    {
      notifiers := notifiers - {n};
      pending := pending - {n};
    }

    /** The notify call returns. */
    method Return(n: nat)
      requires Valid() && n in notifiers && pending[n] == []
      modifies this`notifiers, this`pending
      ensures Valid() && CanDo(old(Ledger()), DoReturn(n)) && Ledger() == Do(old(Ledger()), DoReturn(n))
    {
      Forget(n);
      DoSound(old(Ledger()), DoReturn(n));
    }

    method CloseOne(n: nat)
      requires Valid() && n in notifiers && pending[n] != []
      modifies this`notifiers, this`pending, this`open, this`shut, open
      ensures Valid() && open <= old(open)
      ensures CanDo(old(Ledger()), DoClose(n)) && Ledger() == Do(old(Ledger()), DoClose(n))
    {
      assert pending[n][0] in pending[n];
      CloseNext(n);
    }

    /** The loop's test. */
    predicate HasNext(n: nat)
      reads this`notifiers
      requires n in notifiers
    {
      notifiers[n].next < notifiers[n].subs.len
    }

    lemma HasNextMeaning(n: nat)
      requires HeadersDescribed() && n in notifiers
      ensures HasNext(n) <==> pending[n] != []
    {
    }

    method CloseOneMore(ghost start: Books<K, Chan?>, n: nat, ghost i: nat)
      requires Valid() && n in notifiers && HasNext(n) && ClosedSoFar(start, Ledger(), n, i)
      modifies this`notifiers, this`pending, this`open, this`shut, open
      ensures Valid() && n in notifiers && open <= old(open) && ClosedSoFar(start, Ledger(), n, i + 1)
    {
      HasNextMeaning(n);
      ClosedMore(start, n, i);
      CloseOne(n);
    }

    /** The loop of notify, nobody else running. */
    method CloseAll(n: nat)
      requires Valid() && n in notifiers
      modifies this`notifiers, this`pending, this`open, this`shut, open
      ensures Valid() && n in notifiers && ClosedSoFar(old(Ledger()), Ledger(), n, |old(pending[n])|)
    {
      ghost var start := Ledger();
      ghost var i := 0;
      ClosedNone(start, n);
      while HasNext(n)
        invariant Valid() && n in notifiers && open <= old(open) && ClosedSoFar(start, Ledger(), n, i)
        decreases |start.pending[n]| - i
      {
        CloseOneMore(start, n, i);
        i := i + 1;
      }
      HasNextMeaning(n);
      ClosedEnd(start, Ledger(), n, i);
    }

    /** notify in program order: closes the channels listed under the key, and deletes the entry. */
    method Notify(n: nat, key: K)
      requires Valid() && n !in notifiers
      modifies this`waiters, this`notifiers, this`table, this`pending, this`owner, this`open, this`shut, open
      ensures Valid() && n !in notifiers
      ensures Ledger() == Notified(old(Ledger()), key)
    {
      Take(n, key);
      CloseAll(n);
      NotifyAlone(old(Ledger()), n, key);
      Return(n);
    }

    /** The next thing notifier n does: it takes, closes or returns. */
    method Onward(n: nat, key: K) returns (ghost done: Act<K, Chan?>)
      requires Valid()
      modifies this`waiters, this`notifiers, this`table, this`pending, this`owner, this`open, this`shut, open
      ensures Valid() && owner.Keys <= old(owner.Keys) && open <= old(open)
      ensures IsStepOf(done, CallNotify(n, key), [])
      ensures CanDo(old(Ledger()), done) && Ledger() == Do(old(Ledger()), done)
    {
      if n !in notifiers {
        done := DoTake(n, key);
        Take(n, key);
      } else {
        HasNextMeaning(n);
        if HasNext(n) {
          done := DoClose(n);
          CloseOne(n);
        } else {
          done := DoReturn(n);
          Return(n);
        }
      }
    }

    /** What a goroutine does next, the step it is, and the channels made so far. */
    method Go(call: Call<K>, made: seq<Chan>) returns (now: seq<Chan>, ghost done: Act<K, Chan?>)
      requires Valid() && (call.CallUnsubscribe? ==> call.i < |made|)
      modifies this, owner.Keys, open
      ensures Valid() && fresh(owner.Keys - old(owner.Keys)) && fresh(open - old(open))
      ensures CanDo(old(Ledger()), done) && Ledger() == Do(old(Ledger()), done)
      ensures IsStepOf(done, call, made) && now == made + MadeIn(done)
    {
      now := made;
      match call
      case CallSubscribe(key) =>
        var ch := Subscribe(key);
        done, now := DoSubscribe(key, ch), made + [ch];
      case CallUnsubscribe(key, i) =>
        Unsubscribe(key, made[i]);
        done := DoUnsubscribe(key, made[i]);
      case CallNotify(n, key) =>
        done := Onward(n, key);
    }

    /** One more call of a schedule. */
    method Advance(ghost start: Books<K, Chan?>, ghost given: seq<Chan>, calls: seq<Call<K>>, i: nat, made: seq<Chan>,
        ghost done: seq<Act<K, Chan?>>) returns (now: seq<Chan>, ghost more: seq<Act<K, Chan?>>)
      requires Valid() && i < |calls| && Named(calls, |given|) && SoFar(start, given, calls, i, made, done, Ledger())
      modifies this, owner.Keys, open
      ensures Valid() && fresh(owner.Keys - old(owner.Keys)) && fresh(open - old(open))
      ensures SoFar(start, given, calls, i + 1, now, more, Ledger())
    {
      SoFarNames(start, given, calls, i, made, done, Ledger());
      ghost var step;
      now, step := Go(calls[i], made);
      SoFarNext(start, given, calls, i, made, done, old(Ledger()), step);
      more := done + [step];
    }

    /** Any calls of any goroutines in any order, the closes of every notifier interleaved with the rest;
        an unsubscribe names its channel by the subscribe that made it, in this schedule or, as one of those
        given, in an earlier one. Whatever the calls, each is possible, none closes a channel twice or reads
        a stale slot, and together they are the steps done. */
    method Interleave(calls: seq<Call<K>>, given: seq<Chan>) returns (made: seq<Chan>, ghost done: seq<Act<K, Chan?>>)
      requires Valid() && Named(calls, |given|)
      modifies this, owner.Keys, open
      ensures Valid() && fresh(owner.Keys - old(owner.Keys)) && fresh(open - old(open))
      ensures Replay(old(Ledger()), given, calls, done, Ledger()) && made == given + MadeBy(done)
    {
      made, done := given, [];
      ghost var start := Ledger();
      for i := 0 to |calls|
        invariant Valid() && fresh(owner.Keys - old(owner.Keys)) && fresh(open - old(open))
        invariant SoFar(start, given, calls, i, made, done, Ledger())
      {
        made, done := Advance(start, given, calls, i, made, done);
      }
      assert calls[..|calls|] == calls;
    }
  }

  /** What a goroutine may do next: subscribe, unsubscribe the i-th channel made, or go on as notifier n. */
  datatype Call<K> = CallSubscribe(key: K) | CallUnsubscribe(key: K, i: nat) | CallNotify(n: nat, key: K)

  /** The books once notifier n has closed i of what it had left. */
  ghost function Closed<K, T>(b: Books<K, T>, n: nat, i: nat): Books<K, T>
    requires n in b.pending && i <= |b.pending[n]|
  {
    var gone := Elements(b.pending[n][..i]);
    b.(pending := b.pending[n := b.pending[n][i..]], open := b.open - gone, shut := b.shut + gone)
  }

  ghost predicate ClosedSoFar<K, T>(start: Books<K, T>, b: Books<K, T>, n: nat, i: nat) {
    n in start.pending && i <= |start.pending[n]| && b == Closed(start, n, i)
  }

  lemma ClosedNone<K, T>(b: Books<K, T>, n: nat)
    requires n in b.pending
    ensures ClosedSoFar(b, b, n, 0)
  {
    assert b.pending[n][0..] == b.pending[n];
    assert b.pending[n := b.pending[n]] == b.pending;
  }

  lemma ClosedEnd<K, T>(start: Books<K, T>, b: Books<K, T>, n: nat, i: nat)
    requires ClosedSoFar(start, b, n, i) && n in b.pending && b.pending[n] == []
    ensures ClosedSoFar(start, b, n, |start.pending[n]|)
  {
  }

  lemma ClosedMore<K, T>(b: Books<K, T>, n: nat, i: nat)
    requires n in b.pending && i < |b.pending[n]|
    ensures CanDo(Closed(b, n, i), DoClose(n)) && Do(Closed(b, n, i), DoClose(n)) == Closed(b, n, i + 1)
  {
    assert b.pending[n][..i + 1] == b.pending[n][..i] + [b.pending[n][i]];
  }

  /** The books after a notify that nobody interrupts. */
  function Notified<K, T>(b: Books<K, T>, key: K): Books<K, T> {
    var mine := Elements(Subs(b.table, key));
    b.(table := Taken(b.table, key), open := b.open - mine, shut := b.shut + mine)
  }

  lemma NotifyAlone<K, T>(b: Books<K, T>, n: nat, key: K)
    requires n !in b.pending
    ensures var closed := Closed(Do(b, DoTake(n, key)), n, |Subs(b.table, key)|);
            CanDo(closed, DoReturn(n)) && Do(closed, DoReturn(n)) == Notified(b, key)
  {
    var mine := Subs(b.table, key);
    assert mine[..|mine|] == mine;
    assert b.pending[n := mine][n := []] - {n} == b.pending;
  }

  /** The steps are those of the calls, in order. */
  ghost predicate Replay<K>(b: Books<K, Chan?>, given: seq<Chan?>, calls: seq<Call<K>>, done: seq<Act<K, Chan?>>,
      end: Books<K, Chan?>) {
    History(b, done, end) && Matches(given, done, calls)
  }

  predicate Matches<K(==)>(given: seq<Chan?>, done: seq<Act<K, Chan?>>, calls: seq<Call<K>>)
    decreases |calls|
  {
    if calls == [] || done == [] then calls == [] && done == []
    else
      var before := done[..|done| - 1];
      && IsStepOf(done[|done| - 1], calls[|calls| - 1], given + MadeBy(before))
      && Matches(given, before, calls[..|calls| - 1])
  }

  /** After i calls of a schedule: the steps done, and the channels made. */
  ghost predicate SoFar<K>(start: Books<K, Chan?>, given: seq<Chan?>, calls: seq<Call<K>>, i: nat, made: seq<Chan?>,
      done: seq<Act<K, Chan?>>, now: Books<K, Chan?>) {
    i <= |calls| && Replay(start, given, calls[..i], done, now) && made == given + MadeBy(done)
  }

  /** The channel of an unsubscribe that comes next has been made. */
  lemma SoFarNames<K>(start: Books<K, Chan?>, given: seq<Chan?>, calls: seq<Call<K>>, i: nat, made: seq<Chan?>,
      done: seq<Act<K, Chan?>>, now: Books<K, Chan?>)
    requires SoFar(start, given, calls, i, made, done, now) && i < |calls| && Named(calls, |given|)
    ensures calls[i].CallUnsubscribe? ==> calls[i].i < |made|
  {
    MadeCounts(given, calls[..i], done);
  }

  lemma SoFarNext<K>(start: Books<K, Chan?>, given: seq<Chan?>, calls: seq<Call<K>>, i: nat, made: seq<Chan?>,
      done: seq<Act<K, Chan?>>, now: Books<K, Chan?>, step: Act<K, Chan?>)
    requires SoFar(start, given, calls, i, made, done, now) && i < |calls|
    requires CanDo(now, step) && IsStepOf(step, calls[i], made)
    ensures SoFar(start, given, calls, i + 1, made + MadeIn(step), done + [step], Do(now, step))
  {
    HistorySnoc(start, done, now, step);
    assert calls[..i + 1][..i] == calls[..i] && (done + [step])[..|done|] == done;
    assert given + (MadeBy(done) + MadeIn(step)) == made + MadeIn(step);
  }

  /** The step is one of this call, when these channels have been made. */
  predicate IsStepOf<K(==)>(step: Act<K, Chan?>, call: Call<K>, made: seq<Chan?>) {
    match call
    case CallSubscribe(key) => step.DoSubscribe? && step.key == key
    case CallUnsubscribe(key, i) => i < |made| && step == DoUnsubscribe(key, made[i])
    case CallNotify(n, key) =>
      || (step.DoTake? && step.n == n && step.key == key)
      || (step.DoClose? && step.n == n)
      || (step.DoReturn? && step.n == n)
  }

  function MadeIn<K>(step: Act<K, Chan?>): seq<Chan?> {
    if step.DoSubscribe? then [step.ch] else []
  }

  /** The channels made in these steps, in order. */
  function MadeBy<K>(done: seq<Act<K, Chan?>>): seq<Chan?> {
    if done == [] then [] else MadeBy(done[..|done| - 1]) + MadeIn(done[|done| - 1])
  }

  function Subscribes<K>(calls: seq<Call<K>>): nat {
    if calls == [] then 0
    else Subscribes(calls[..|calls| - 1]) + if calls[|calls| - 1].CallSubscribe? then 1 else 0
  }

  /** An unsubscribe comes after the subscribe of its channel; n channels were made before. */
  predicate Named<K>(calls: seq<Call<K>>, n: nat) {
    forall at :: 0 <= at < |calls| && calls[at].CallUnsubscribe? ==> calls[at].i < n + Subscribes(calls[..at])
  }

  lemma {:induction false} MadeCounts<K>(given: seq<Chan?>, calls: seq<Call<K>>, done: seq<Act<K, Chan?>>)
    requires Matches(given, done, calls)
    ensures |MadeBy(done)| == Subscribes(calls)
    decreases |calls|
  {
    if calls == [] {
    } else {
      MadeCounts(given, calls[..|calls| - 1], done[..|done| - 1]);
    }
  }

  function Elements<T>(s: seq<T>): set<T> {
    set c | c in s
  }
}
