/**
 Hot restart at the client: one stream pool per index, each with a session of some epoch. A restart
 event replaces the pools one by one and keeps the old ones in reserve; a checker acknowledges the
 restart when all are replaced or gives up after a while; meanwhile one goroutine per index may be
 rebuilding the session of a pool it has taken hold of. Every step but `Store` runs under the
 manager's lock; `Store` is the assignment after the lock has been released.
 */
module HotRestart {

  datatype Rebuilder =
    | Idle
    | Watching(pool: nat)                 // waits for the pool's session to close
    | Rebuilding(pool: nat)               // waits for its timer
    | Storing(pool: nat, epoch: nat)      // has a new session, will store it in the pool

  /** What the checker saw when it acknowledged: the epoch of the session at each index, and the reserve. */
  datatype Ack = Ack(epoch: nat, epochs: seq<nat>, reserve: map<nat, nat>, before: seq<nat>)

  /**
   Pools are numbered in the order of their creation, and `sessions` gives the epoch of the session
   each one holds. `before` and `since` are history: the pools when the restart began and the number
   of the first pool created after that.
   */
  datatype Manager = Manager(hot: bool, epoch: nat, pools: seq<nat>, reserve: map<nat, nat>, sessions: seq<nat>,
                             rebuilders: seq<Rebuilder>, checking: bool,
                             before: seq<nat>, since: nat, acks: seq<Ack>)

  datatype Act =
    | Fetch(i: nat)
    | SessionClosed(i: nat)
    | Timer(i: nat, ok: bool)             // `ok`: the new session could be opened
    | Store(i: nat)
    | Event(i: nat, epoch: nat, ok: bool)
    | Tick
    | Timeout

  function Go(s: Manager, i: nat, r: Rebuilder): Manager
    requires i < |s.rebuilders|
  {
    s.(rebuilders := s.rebuilders[i := r])
  }

  function SessionEpochs(sessions: seq<nat>, pools: seq<nat>): seq<nat>
  {
    seq(|pools|, i requires 0 <= i < |pools| => if pools[i] < |sessions| then sessions[pools[i]] else 0)
  }

  /** The beginning of handleSessionManagerHotRestart: the first event of a restart sets the state. */
  function Begun(s: Manager, epoch: nat): Manager
  {
    if s.hot then s
    else s.(hot := true, epoch := epoch, reserve := map[], checking := true, before := s.pools, since := |s.sessions|)
  }

  /** Its end: a new pool takes the place of the old one, which goes into the reserve. */
  function Replaced(s: Manager, i: nat): Manager
    requires i < |s.pools|
  {
    s.(reserve := s.reserve[i := s.pools[i]], pools := s.pools[i := |s.sessions|], sessions := s.sessions + [s.epoch])
  }

  ghost predicate Step(s: Manager, a: Act, t: Manager)
  {
    match a
    case Fetch(i) =>
      && i < |s.pools| && i < |s.rebuilders| && s.rebuilders[i].Idle? && !s.hot
      && t == Go(s, i, Watching(s.pools[i]))
    case SessionClosed(i) =>
      && i < |s.rebuilders| && s.rebuilders[i].Watching?
      && t == Go(s, i, if s.hot then Idle else Rebuilding(s.rebuilders[i].pool))
    case Timer(i, ok) =>
      && i < |s.pools| && i < |s.rebuilders| && s.rebuilders[i].Rebuilding?
      && s.pools[i] < |s.sessions| && s.rebuilders[i].pool < |s.sessions|
      && t == if s.sessions[s.pools[i]] != s.sessions[s.rebuilders[i].pool] then Go(s, i, Idle)
              else if ok then Go(s, i, Storing(s.rebuilders[i].pool, s.epoch))
              else s
    case Store(i) =>
      && i < |s.rebuilders| && s.rebuilders[i].Storing? && s.rebuilders[i].pool < |s.sessions|
      && t == Go(s, i, Idle).(sessions := s.sessions[s.rebuilders[i].pool := s.rebuilders[i].epoch])
    case Event(i, epoch, ok) =>
      && i < |s.pools|
      && t == if s.hot && s.epoch != epoch then s
              else if i in Begun(s, epoch).reserve || !ok then Begun(s, epoch)
              else Replaced(Begun(s, epoch), i)
    case Tick =>
      && s.checking
      && t == if |s.reserve| == |s.pools| then
          s.(hot := false, checking := false,
             acks := s.acks + [Ack(s.epoch, SessionEpochs(s.sessions, s.pools), s.reserve, s.before)])
        else s
    case Timeout =>
      s.checking && t == s.(hot := false, checking := false, reserve := map[])
  }

  // ---------- the invariant ----------

  /** During a restart: index `i` has been replaced, or it is as it was. */
  predicate Phase(s: Manager, i: nat)
    requires i < |s.pools| == |s.before|
  {
    if i in s.reserve then
      s.reserve[i] == s.before[i] && s.since <= s.pools[i] < |s.sessions| && s.sessions[s.pools[i]] == s.epoch
    else
      s.pools[i] == s.before[i]
  }

  predicate Old(s: Manager, r: Rebuilder)
  {
    !r.Idle? ==> r.pool < |s.sessions| && (s.hot ==> r.pool < s.since)
  }

  ghost predicate AckOk(a: Ack)
  {
    && |a.epochs| == |a.before| && a.reserve.Keys == Indices(|a.before|)
    && (forall i :: 0 <= i < |a.epochs| ==> a.epochs[i] == a.epoch)
    && (forall i :: 0 <= i < |a.before| ==> i in a.reserve && a.reserve[i] == a.before[i])
  }

  function Indices(n: nat): set<nat>
  {
    if n == 0 then {} else Indices(n - 1) + {n - 1}
  }

  lemma {:induction false} IndicesAre(n: nat)
    ensures |Indices(n)| == n && forall i: nat :: i in Indices(n) <==> i < n
  {
    if n > 0 {
      IndicesAre(n - 1);
    }
  }

  lemma {:induction false} SameSize(a: set<nat>, b: set<nat>)
    requires a <= b && |a| == |b|
    ensures a == b
  {
    if a != {} {
      var x :| x in a;
      SameSize(a - {x}, b - {x});
      assert a == (a - {x}) + {x} && b == (b - {x}) + {x};
    }
  }

  ghost predicate Inv(s: Manager)
  {
    && (s.checking <==> s.hot)
    && (forall i :: 0 <= i < |s.pools| ==> s.pools[i] < |s.sessions|)
    && (forall i :: 0 <= i < |s.rebuilders| ==> Old(s, s.rebuilders[i]))
    && (s.hot ==> |s.before| == |s.pools| && s.since <= |s.sessions|)
    && (s.hot ==> forall i :: 0 <= i < |s.before| ==> s.before[i] < s.since)
    && (s.hot ==> forall i :: i in s.reserve ==> i < |s.pools|)
    && (s.hot ==> forall i :: 0 <= i < |s.pools| ==> Phase(s, i))
    && (forall k :: 0 <= k < |s.acks| ==> AckOk(s.acks[k]))
  }

  // ---------- every step keeps it ----------

  lemma BegunKeeps(s: Manager, epoch: nat)
    requires Inv(s)
    ensures Inv(Begun(s, epoch))
  {
    hide AckOk;
    var t := Begun(s, epoch);
    forall i | 0 <= i < |t.rebuilders| ensures Old(t, t.rebuilders[i]) {
      assert Old(s, s.rebuilders[i]);
    }
    if !s.hot {
      forall i | 0 <= i < |t.pools| ensures Phase(t, i) {
        assert s.pools[i] < |s.sessions|;
      }
    }
  }

  lemma ReplacedKeeps(s: Manager, i: nat)
    requires Inv(s) && s.hot && i < |s.pools| && i !in s.reserve
    ensures Inv(Replaced(s, i))
  {
    hide AckOk;
    var t := Replaced(s, i);
    assert Phase(s, i);
    forall j | 0 <= j < |t.pools| ensures Phase(t, j) && t.pools[j] < |t.sessions| {
      assert Phase(s, j);
    }
    forall j | 0 <= j < |t.rebuilders| ensures Old(t, t.rebuilders[j]) {
      assert Old(s, s.rebuilders[j]);
    }
  }

  /** A session stored late goes into a pool from before the restart: no replaced index notices. */
  lemma StoreKeeps(s: Manager, i: nat, t: Manager)
    requires Inv(s) && Step(s, Store(i), t)
    ensures Inv(t)
  {
    hide AckOk;
    assert Old(s, s.rebuilders[i]);
    if s.hot {
      forall j | 0 <= j < |t.pools| ensures Phase(t, j) {
        assert Phase(s, j);
      }
    }
    forall j | 0 <= j < |t.rebuilders| ensures Old(t, t.rebuilders[j]) {
      assert Old(s, s.rebuilders[j]);
    }
  }

  lemma TickKeeps(s: Manager, t: Manager)
    requires Inv(s) && Step(s, Tick, t)
    ensures Inv(t)
  {
    forall j | 0 <= j < |t.rebuilders| ensures Old(t, t.rebuilders[j]) {
      assert Old(s, s.rebuilders[j]);
    }
    if |s.reserve| == |s.pools| {
      AllReplaced(s);
      forall k | 0 <= k < |t.acks| ensures AckOk(t.acks[k]) {
        assert k < |s.acks| ==> AckOk(s.acks[k]);
      }
    }
  }

  predicate ReplacedAt(s: Manager, i: nat)
  {
    && i < |s.pools| && i < |s.before| && s.pools[i] < |s.sessions| && s.sessions[s.pools[i]] == s.epoch
    && i in s.reserve && s.reserve[i] == s.before[i] != s.pools[i]
  }

  /** A reserve as large as the pools holds every index. */
  lemma EveryIndex(s: Manager)
    requires Inv(s) && s.hot && |s.reserve| == |s.pools|
    ensures |s.before| == |s.pools| && s.reserve.Keys == Indices(|s.pools|) && forall i :: 0 <= i < |s.pools| ==>
      ReplacedAt(s, i)
  {
    hide AckOk;
    var n := |s.pools|;
    IndicesAre(n);
    assert s.reserve.Keys <= Indices(n) && |s.reserve.Keys| == |s.reserve|;
    SameSize(s.reserve.Keys, Indices(n));
    forall i | 0 <= i < n ensures ReplacedAt(s, i) {
      assert i in Indices(n) && Phase(s, i);
    }
  }

  lemma AllReplaced(s: Manager)
    requires Inv(s) && s.hot && |s.reserve| == |s.pools|
    ensures AckOk(Ack(s.epoch, SessionEpochs(s.sessions, s.pools), s.reserve, s.before))
  {
    hide Inv;
    EveryIndex(s);
    forall i | 0 <= i < |s.pools|
      ensures i in s.reserve && s.reserve[i] == s.before[i] && SessionEpochs(s.sessions, s.pools)[i] == s.epoch
    {
      assert ReplacedAt(s, i);
    }
  }

  /** A step that only moves a rebuilder. */
  lemma RebuilderKeeps(s: Manager, t: Manager)
    requires Inv(s) && t == s.(rebuilders := t.rebuilders) && forall i :: 0 <= i < |t.rebuilders| ==>
      Old(t, t.rebuilders[i])
    ensures Inv(t)
  {
    hide AckOk;
    forall j | s.hot && 0 <= j < |t.pools| ensures Phase(t, j) {
      assert Phase(s, j);
    }
  }

  lemma StepKeeps(s: Manager, a: Act, t: Manager)
    requires Inv(s) && Step(s, a, t)
    ensures Inv(t)
  {
    hide AckOk;
    match a {
      case Event(i, epoch, ok) =>
        BegunKeeps(s, epoch);
        if !(s.hot && s.epoch != epoch) && i !in Begun(s, epoch).reserve && ok {
          ReplacedKeeps(Begun(s, epoch), i);
        }
      case Store(i) => StoreKeeps(s, i, t);
      case Tick => TickKeeps(s, t);
      case Timeout =>
        forall j | 0 <= j < |t.rebuilders| ensures Old(t, t.rebuilders[j]) {
          assert Old(s, s.rebuilders[j]);
        }
      case _ =>
        forall j | 0 <= j < |t.rebuilders| ensures Old(t, t.rebuilders[j]) {
          assert Old(s, s.rebuilders[j]);
        }
        RebuilderKeeps(s, t);
    }
  }

  ghost predicate Init(s: Manager)
  {
    && !s.hot && !s.checking && s.reserve == map[] && s.acks == [] && |s.rebuilders| == |s.pools|
    && (forall i :: 0 <= i < |s.pools| ==> s.pools[i] < |s.sessions|)
    && (forall i :: 0 <= i < |s.rebuilders| ==> s.rebuilders[i] == Idle)
  }

  ghost predicate Run(tr: seq<Manager>, acts: seq<Act>)
  {
    && |tr| == |acts| + 1 && Init(tr[0])
    && forall k :: 0 <= k < |acts| ==> Step(tr[k], acts[k], tr[k + 1])
  }

  lemma {:induction false} RunKeeps(tr: seq<Manager>, acts: seq<Act>, k: nat)
    requires Run(tr, acts) && k < |tr|
    ensures Inv(tr[k])
  {
    hide Step;
    if k == 0 {
      forall i | 0 <= i < |tr[0].rebuilders| ensures Old(tr[0], tr[0].rebuilders[i]) {
        assert tr[0].rebuilders[i] == Idle;
      }
    } else {
      RunKeeps(tr, acts, k - 1);
      StepKeeps(tr[k - 1], acts[k - 1], tr[k]);
    }
  }

  /**
   An acknowledgement of epoch e is sent only when every index holds a session of epoch e and the
   reserve holds, under every index, exactly the pool that was there when the restart began. This
   holds whatever the rebuilders, repeated or foreign events and time-outs do in between.
   */
  lemma AckMeansReplaced(tr: seq<Manager>, acts: seq<Act>, k: nat)
    requires Run(tr, acts) && k < |acts| && tr[k + 1].acks != tr[k].acks
    ensures acts[k] == Tick && tr[k].hot && !tr[k + 1].hot
    ensures |tr[k + 1].acks| == |tr[k].acks| + 1 && tr[k].acks <= tr[k + 1].acks
    ensures tr[k + 1].acks[|tr[k].acks|].epoch == tr[k].epoch
    ensures |tr[k].before| == |tr[k].pools| && forall i :: 0 <= i < |tr[k].pools| ==> ReplacedAt(tr[k], i)
  {
    hide Init, AckOk, ReplacedAt, Phase, Old;
    RunKeeps(tr, acts, k);
    assert Step(tr[k], acts[k], tr[k + 1]);
    EveryIndex(tr[k]);
  }

  /** While a restart is going on it keeps its epoch, and each index is replaced at most once. */
  lemma OneReplacement(tr: seq<Manager>, acts: seq<Act>, k: nat, i: nat)
    requires Run(tr, acts) && k < |acts| && tr[k].hot && tr[k + 1].hot && i < |tr[k].pools|
    ensures tr[k + 1].epoch == tr[k].epoch && |tr[k + 1].pools| == |tr[k].pools|
    ensures i in tr[k].reserve ==> tr[k + 1].pools[i] == tr[k].pools[i] && i in tr[k + 1].reserve
    ensures i in tr[k].reserve ==> tr[k + 1].reserve[i] == tr[k].reserve[i]
  {
    hide Init, Inv;
    assert Step(tr[k], acts[k], tr[k + 1]);
  }

  /** The timer of rebuilder `i` went off at step `j` for `pool`, nobody had replaced it, and the epoch was `epoch`. */
  ghost predicate TimedAt(tr: seq<Manager>, acts: seq<Act>, j: nat, i: nat, pool: nat, epoch: nat)
    requires |tr| == |acts| + 1
  {
    && j < |acts| && acts[j] == Timer(i, true) && i < |tr[j].rebuilders| && tr[j].rebuilders[i] == Rebuilding(pool)
    && i < |tr[j].pools| && tr[j].pools[i] < |tr[j].sessions| && pool < |tr[j].sessions|
    && tr[j].sessions[tr[j].pools[i]] == tr[j].sessions[pool] && tr[j].epoch == epoch
  }

  /** A rebuilder is about to store because its timer went off now, or it was before. */
  lemma StoringStep(s: Manager, a: Act, t: Manager, i: nat)
    requires Step(s, a, t) && i < |t.rebuilders| && t.rebuilders[i].Storing?
    ensures i < |s.rebuilders|
    ensures t.rebuilders[i] == s.rebuilders[i] || (a == Timer(i, true) && t.rebuilders[i].epoch == s.epoch
      && s.rebuilders[i] == Rebuilding(t.rebuilders[i].pool) && i < |s.pools| && s.pools[i] < |s.sessions|
      && t.rebuilders[i].pool < |s.sessions| && s.sessions[s.pools[i]] == s.sessions[t.rebuilders[i].pool])
  {
  }

  lemma {:induction false} StoringSince(tr: seq<Manager>, acts: seq<Act>, k: nat, i: nat)
    requires Run(tr, acts) && k < |tr| && i < |tr[k].rebuilders| && tr[k].rebuilders[i].Storing?
    ensures exists j :: 0 <= j < k && TimedAt(tr, acts, j, i, tr[k].rebuilders[i].pool, tr[k].rebuilders[i].epoch)
  {
    hide Step;
    if k > 0 {
      StoringStep(tr[k - 1], acts[k - 1], tr[k], i);
      if tr[k].rebuilders[i] == tr[k - 1].rebuilders[i] {
        StoringSince(tr, acts, k - 1, i);
      } else {
        assert TimedAt(tr, acts, k - 1, i, tr[k].rebuilders[i].pool, tr[k].rebuilders[i].epoch);
      }
    }
  }

  /**
   A session stored in a pool has the manager's epoch at the timer before, when the pool's session had
   the epoch of the one in its place. Only that pool changes.
   */
  lemma StoredEpoch(tr: seq<Manager>, acts: seq<Act>, k: nat, i: nat)
    requires Run(tr, acts) && k < |acts| && acts[k] == Store(i)
    ensures i < |tr[k].rebuilders| && tr[k].rebuilders[i].Storing? && tr[k].rebuilders[i].pool < |tr[k].sessions|
    ensures exists j ::
      && 0 <= j < k && TimedAt(tr, acts, j, i, tr[k].rebuilders[i].pool, tr[j].epoch)
      && tr[k + 1].sessions == tr[k].sessions[tr[k].rebuilders[i].pool := tr[j].epoch]
  {
    assert Step(tr[k], acts[k], tr[k + 1]);
    StoringSince(tr, acts, k, i);
  }
}
