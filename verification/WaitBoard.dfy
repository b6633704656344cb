/** The waiting side of the daemon (handleWait, subscribe, unsubscribe, notify of
    internal/daemon/daemon.go) as a transition system: the waiter table, the slices notifiers have taken
    and are closing, the channels, and the loop of every wait call. A mutex-protected section is one
    step; everything else interleaves freely. */
module WaitBoard {
  import opened Text
  import opened Waiters

  /** Where a wait call is. K is the key it waits on, R what it answers. */
  datatype Pc<+R> =
    | Loop
    | Subscribing(ch: nat)
    | Blocked(ch: nat, run: nat)
    | Leaving(ch: nat, answer: Option<R>)
    | Returned(result: R)

  datatype Wait<+K, +R> = Wait(key: K, pc: Pc<R>)

  datatype Board<K(==), R> = Board(
    table: Table<K, nat>,
    taken: map<nat, seq<nat>>,
    closed: set<nat>,
    next: nat,
    waits: map<nat, Wait<K, R>>,
    doubleClosed: bool)

  function Empty<K, R>(): Board<K, R> {
    Board(map[], map[], {}, 0, map[], false)
  }

  datatype Op<+K, +R> =
    | Arrive(w: nat, key: K)
    | Subscribe(w: nat)
    | Block(w: nat, run: nat)
    | Leave(w: nat, answer: Option<R>)
    | Unsubscribe(w: nat)
    | Wake(w: nat)
    | Take(p: nat, key: K)
    | Close(p: nat)
    | Done(p: nat)

  predicate Holds<K, R>(b: Board<K, R>, w: nat, ch: nat) {
    w in b.waits && match b.waits[w].pc
      case Subscribing(c) => c == ch
      case Blocked(c, _) => c == ch
      case Leaving(c, _) => c == ch
      case _ => false
  }

  predicate Enabled<K, R>(b: Board<K, R>, op: Op<K, R>) {
    match op
    case Arrive(w, _) => w !in b.waits
    case Subscribe(w) => w in b.waits && b.waits[w].pc.Loop?
    case Block(w, _) => w in b.waits && b.waits[w].pc.Subscribing?
    case Leave(w, _) => w in b.waits && (b.waits[w].pc.Subscribing? || b.waits[w].pc.Blocked?)
    case Unsubscribe(w) => w in b.waits && b.waits[w].pc.Leaving?
    case Wake(w) => w in b.waits && b.waits[w].pc.Blocked? && b.waits[w].pc.ch in b.closed
    case Take(p, _) => p !in b.taken
    case Close(p) => p in b.taken && b.taken[p] != []
    case Done(p) => p in b.taken && b.taken[p] == []
  }

  function SetPc<K, R>(b: Board<K, R>, w: nat, pc: Pc<R>): Board<K, R>
    requires w in b.waits
  {
    b.(waits := b.waits[w := b.waits[w].(pc := pc)])
  }

  function Apply<K, R>(b: Board<K, R>, op: Op<K, R>): Board<K, R>
    requires Enabled(b, op)
  {
    match op
    case Arrive(w, key) => b.(waits := b.waits[w := Wait(key, Loop)])
    case Subscribe(w) =>
      SetPc(b, w, Subscribing(b.next)).(table := Subscribed(b.table, b.waits[w].key, b.next), next := b.next + 1)
    case Block(w, run) => SetPc(b, w, Blocked(b.waits[w].pc.ch, run))
    case Leave(w, answer) => SetPc(b, w, Leaving(b.waits[w].pc.ch, answer))
    case Unsubscribe(w) =>
      var pc := b.waits[w].pc;
      SetPc(b, w, if pc.answer == None then Loop else Returned(pc.answer.value))
        .(table := Unsubscribed(b.table, b.waits[w].key, pc.ch))
    case Wake(w) => SetPc(b, w, Loop)
    case Take(p, key) => b.(table := Taken(b.table, key), taken := b.taken[p := Subs(b.table, key)])
    case Close(p) =>
      var ch := b.taken[p][0];
      b.(taken := b.taken[p := b.taken[p][1..]], closed := b.closed + {ch},
         doubleClosed := b.doubleClosed || ch in b.closed)
    case Done(p) => b.(taken := b.taken - {p})
  }

  // ---- the invariant ----

  predicate IsTaken<K, R>(b: Board<K, R>, ch: nat) {
    exists p :: p in b.taken && ch in b.taken[p]
  }

  /** Every channel that can still be closed is open, exists, and is in one place only. */
  ghost predicate OnePlace<K(!new), R>(b: Board<K, R>) {
    && EachOnce(b.table)
    && (forall p :: p in b.taken ==> Distinct(b.taken[p]))
    && (forall p, q, ch: nat :: p in b.taken && q in b.taken && ch in b.taken[p] && ch in b.taken[q] ==> p == q)
    && (forall k, ch: nat :: ch in Subs(b.table, k) ==> ch < b.next && ch !in b.closed && !IsTaken(b, ch))
    && (forall ch: nat :: IsTaken(b, ch) ==> ch < b.next && ch !in b.closed)
    && (forall ch: nat :: ch in b.closed ==> ch < b.next)
    && !b.doubleClosed
  }

  /** A held channel is listed under the holder's key, or taken, or closed; it has one holder; and what
      is listed is held. */
  ghost predicate HeldSomewhere<K(!new), R(!new)>(b: Board<K, R>) {
    && (forall w, ch: nat :: Holds(b, w, ch) ==>
          ch < b.next && (ch in Subs(b.table, b.waits[w].key) || IsTaken(b, ch) || ch in b.closed))
    && (forall w, v, ch: nat :: Holds(b, w, ch) && Holds(b, v, ch) ==> w == v)
    && (forall k, ch: nat :: ch in Subs(b.table, k) ==> exists w :: Holds(b, w, ch) && b.waits[w].key == k)
  }

  ghost predicate Inv<K(!new), R(!new)>(b: Board<K, R>) {
    OnePlace(b) && HeldSomewhere(b)
  }

  lemma EmptyInv<K(!new), R(!new)>()
    ensures Inv(Empty<K, R>())
  {
    var b := Empty<K, R>();
    assert forall k :: Subs(b.table, k) == [];
  }

  lemma NotListed<K(!new), R(!new)>(b: Board<K, R>, ch: nat)
    requires OnePlace(b) && (ch >= b.next || ch in b.closed || IsTaken(b, ch))
    ensures !Listed(b.table, ch)
  {
    assert forall k :: k in b.table ==> Subs(b.table, k) == b.table[k];
  }

  lemma SubscribePreserves<K(!new), R(!new)>(b: Board<K, R>, w: nat)
    requires Inv(b) && Enabled(b, Subscribe(w))
    ensures Inv(Apply(b, Subscribe(w)))
  {
    var b' := Apply(b, Subscribe(w));
    NotListed(b, b.next);
    SubscribedOnce(b.table, b.waits[w].key, b.next);
    assert forall ch: nat :: IsTaken(b', ch) <==> IsTaken(b, ch);
    assert forall v, ch: nat :: Holds(b', v, ch) <==> if v == w then ch == b.next else Holds(b, v, ch);
    forall k, ch: nat | ch in Subs(b'.table, k) ensures exists v :: Holds(b', v, ch) && b'.waits[v].key == k {
      if ch == b.next {
        assert Holds(b', w, ch);
      } else {
        var v :| Holds(b, v, ch) && b.waits[v].key == k;
        assert Holds(b', v, ch);
      }
    }
  }

  lemma UnsubscribePreserves<K(!new), R(!new)>(b: Board<K, R>, w: nat)
    requires Inv(b) && Enabled(b, Unsubscribe(w))
    ensures Inv(Apply(b, Unsubscribe(w)))
  {
    var b' := Apply(b, Unsubscribe(w));
    var mine := b.waits[w].pc.ch;
    assert Holds(b, w, mine);
    UnsubscribedOnce(b.table, b.waits[w].key, mine);
    assert forall ch: nat :: IsTaken(b', ch) <==> IsTaken(b, ch);
    assert forall v, ch: nat :: Holds(b', v, ch) <==> v != w && Holds(b, v, ch);
    forall k, ch: nat | ch in Subs(b'.table, k) ensures exists v :: Holds(b', v, ch) && b'.waits[v].key == k {
      var v :| Holds(b, v, ch) && b.waits[v].key == k;
      assert Holds(b', v, ch);
    }
  }

  lemma TakePreserves<K(!new), R(!new)>(b: Board<K, R>, p: nat, key: K)
    requires Inv(b) && Enabled(b, Take(p, key))
    ensures Inv(Apply(b, Take(p, key)))
  {
    var b' := Apply(b, Take(p, key));
    assert forall k :: Subs(b'.table, k) == if k == key then [] else Subs(b.table, k);
    forall ch: nat ensures IsTaken(b', ch) <==> IsTaken(b, ch) || ch in Subs(b.table, key) {
      if IsTaken(b, ch) {
        var q :| q in b.taken && ch in b.taken[q];
        assert ch in b'.taken[q];
      }
      if ch in Subs(b.table, key) {
        assert ch in b'.taken[p];
      }
    }
    assert forall v, ch: nat :: Holds(b', v, ch) <==> Holds(b, v, ch);
    forall q, r, ch: nat | q in b'.taken && r in b'.taken && ch in b'.taken[q] && ch in b'.taken[r] ensures q == r {
      if q != p { assert IsTaken(b, ch); }
      if r != p { assert IsTaken(b, ch); }
    }
    forall k, ch: nat | ch in Subs(b'.table, k) ensures exists v :: Holds(b', v, ch) && b'.waits[v].key == k {
      var v :| Holds(b, v, ch) && b.waits[v].key == k;
      assert Holds(b', v, ch);
    }
  }

  lemma ClosePreserves<K(!new), R(!new)>(b: Board<K, R>, p: nat)
    requires Inv(b) && Enabled(b, Close(p))
    ensures Inv(Apply(b, Close(p)))
  {
    var b' := Apply(b, Close(p));
    var first := b.taken[p][0];
    assert IsTaken(b, first);
    assert forall ch: nat :: ch in b.taken[p] <==> ch == first || ch in b'.taken[p];
    forall ch: nat ensures IsTaken(b', ch) <==> IsTaken(b, ch) && ch != first {
      if IsTaken(b, ch) && ch != first {
        var q :| q in b.taken && ch in b.taken[q];
        assert ch in b'.taken[q];
      }
      if IsTaken(b', ch) {
        var q :| q in b'.taken && ch in b'.taken[q];
        assert ch in b.taken[q];
      }
    }
    assert forall v, ch: nat :: Holds(b', v, ch) <==> Holds(b, v, ch);
    forall k, ch: nat | ch in Subs(b'.table, k) ensures exists v :: Holds(b', v, ch) && b'.waits[v].key == k {
      var v :| Holds(b, v, ch) && b.waits[v].key == k;
      assert Holds(b', v, ch);
    }
  }

  /** The steps that touch neither the table nor any channel. */
  lemma QuietPreserves<K(!new), R(!new)>(b: Board<K, R>, op: Op<K, R>)
    requires Inv(b) && Enabled(b, op)
    requires op.Arrive? || op.Block? || op.Leave? || op.Wake? || op.Done?
    ensures Inv(Apply(b, op))
  {
    var b' := Apply(b, op);
    forall ch: nat ensures IsTaken(b', ch) <==> IsTaken(b, ch) {
      if IsTaken(b, ch) {
        var q :| q in b.taken && ch in b.taken[q];
        assert ch in b'.taken[q];
      }
    }
    assert forall v, ch: nat :: Holds(b', v, ch) ==> Holds(b, v, ch) && b'.waits[v].key == b.waits[v].key;
    forall k, ch: nat | ch in Subs(b'.table, k) ensures exists v :: Holds(b', v, ch) && b'.waits[v].key == k {
      var v :| Holds(b, v, ch) && b.waits[v].key == k;
      assert ch !in b.closed;
      assert op.Wake? ==> op.w != v;
      assert Holds(b', v, ch);
    }
  }

  lemma Preserves<K(!new), R(!new)>(b: Board<K, R>, op: Op<K, R>)
    requires Inv(b) && Enabled(b, op)
    ensures Inv(Apply(b, op))
  {
    match op
    case Subscribe(w) => SubscribePreserves(b, w);
    case Unsubscribe(w) => UnsubscribePreserves(b, w);
    case Take(p, key) => TakePreserves(b, p, key);
    case Close(p) => ClosePreserves(b, p);
    case _ => QuietPreserves(b, op);
  }

  ghost predicate Outstanding<K(!new), R(!new)>(b: Board<K, R>, w: nat) {
    exists ch: nat :: Holds(b, w, ch)
  }

  /** The table lists nothing once no wait is outstanding, and never a channel twice. */
  lemma EmptyWhenNobodyWaits<K(!new), R(!new)>(b: Board<K, R>)
    requires Inv(b)
    ensures EachOnce(b.table) && !b.doubleClosed
    ensures (forall w :: !Outstanding(b, w)) ==> b.table == map[]
  {
    if b.table != map[] && forall w :: !Outstanding(b, w) {
      var k :| k in b.table;
      var ch := b.table[k][0];
      assert ch in Subs(b.table, k);
      var w :| Holds(b, w, ch);
      assert Outstanding(b, w);
    }
  }
}
