/** The single-instance lease in Redis: SET NX PX to acquire, and owner-checked scripts
    to refresh and release. */
module RuntimeLock {
  import opened Common

  /** The key's value and its expiry time. */
  datatype Lease = Lease(token: nat, expires: int)

  /** An instance's view: whether it believes it holds the lock, and when it last
      succeeded in acquiring or refreshing it. */
  datatype Instance = Instance(ttl: nat, held: bool, success: int)

  /** The clock, the key, and every instance by its token. */
  datatype World = World(now: int, key: Option<Lease>, instances: map<nat, Instance>)

  datatype Step = Acquire(token: nat) | Refresh(token: nat) | Release(token: nat) | Tick(elapsed: nat)

  /** What a GET of the key returns: an expired key is gone. */
  function Live(key: Option<Lease>, now: int): Option<Lease> {
    if key.Some? && now < key.value.expires then key else None
  }

  predicate Owns(key: Option<Lease>, now: int, token: nat) {
    Live(key, now).Some? && Live(key, now).value.token == token
  }

  function Acquired(w: World, token: nat): World
    requires token in w.instances
  {
    var me := w.instances[token];
    if Live(w.key, w.now).None? then
      w.(key := Some(Lease(token, w.now + me.ttl)),
         instances := w.instances[token := me.(held := true, success := w.now)])
    else w.(instances := w.instances[token := me.(held := false)])
  }

  function Refreshed(w: World, token: nat): World
    requires token in w.instances
  {
    var me := w.instances[token];
    if !me.held then w
    else if Owns(w.key, w.now, token) then
      w.(key := Some(Lease(token, w.now + me.ttl)),
         instances := w.instances[token := me.(success := w.now)])
    else w.(instances := w.instances[token := me.(held := false)])
  }

  function Released(w: World, token: nat): World
    requires token in w.instances
  {
    var me := w.instances[token];
    if !me.held then w
    else
      w.(key := if Owns(w.key, w.now, token) then None else w.key,
         instances := w.instances[token := me.(held := false)])
  }

  function Next(w: World, s: Step): World {
    match s
    case Tick(elapsed) => w.(now := w.now + elapsed)
    case Acquire(token) => if token in w.instances then Acquired(w, token) else w
    case Refresh(token) => if token in w.instances then Refreshed(w, token) else w
    case Release(token) => if token in w.instances then Released(w, token) else w
  }

  function Run(w: World, steps: seq<Step>): World
    decreases |steps|
  {
    if steps == [] then w else Run(Next(w, steps[0]), steps[1..])
  }

  /** The instance believes it holds the lock and its last success is less than its ttl ago. */
  predicate Holds(w: World, token: nat) {
    && token in w.instances && w.instances[token].held
    && w.now < w.instances[token].success + w.instances[token].ttl
  }

  /** A holder's lease is the key itself, for as long as the holder counts on it. */
  ghost predicate Exclusive(w: World) {
    forall token :: Holds(w, token) ==>
      w.key == Some(Lease(token, w.instances[token].success + w.instances[token].ttl))
  }

  lemma NextExclusive(w: World, s: Step)
    requires Exclusive(w)
    ensures Exclusive(Next(w, s))
  {
    forall token | Holds(Next(w, s), token)
      ensures Next(w, s).key ==
              Some(Lease(token, Next(w, s).instances[token].success + Next(w, s).instances[token].ttl))
    {
      assert (s.Tick? || s.token != token) ==> Holds(w, token);
    }
  }

  /** Over any interleaving of any number of instances, at most one of them is within its
      ttl of its last successful acquire or refresh while it believes it holds the lock. */
  lemma {:induction false} MutualExclusion(w: World, steps: seq<Step>)
    requires Exclusive(w)
    ensures Exclusive(Run(w, steps))
    ensures forall a, b :: Holds(Run(w, steps), a) && Holds(Run(w, steps), b) ==> a == b
    decreases |steps|
  {
    if steps != [] {
      NextExclusive(w, steps[0]);
      MutualExclusion(Next(w, steps[0]), steps[1..]);
    }
  }

  /** Nobody holds a fresh lock. */
  lemma FreshIsExclusive(w: World)
    requires forall token :: token in w.instances ==> !w.instances[token].held
    ensures Exclusive(w)
  {
  }

  /** Refreshing and releasing leave a lease of another token alone, and acquiring
      replaces one only once it has expired. */
  lemma OthersUntouched(w: World, s: Step)
    requires w.key.Some? && (s.Tick? || s.token != w.key.value.token)
    ensures Next(w, s).key == w.key || (s.Acquire? && w.now >= w.key.value.expires)
  {
  }

  /** An acquire succeeds exactly when no lease is live, whoever owned it. */
  lemma AcquireIff(w: World, token: nat)
    requires token in w.instances
    ensures Acquired(w, token).instances[token].held <==> Live(w.key, w.now) == None
  {
  }

  /** The belief alone is not exclusive: an instance that stalls past its ttl still
      believes it holds the lock that another has acquired. */
  lemma BeliefsMayOverlap()
    ensures var start := World(0, None, map[1 := Instance(30, false, 0), 2 := Instance(30, false, 0)]);
            var end := Run(start, [Acquire(1), Tick(30), Acquire(2)]);
            end.instances[1].held && end.instances[2].held && !Holds(end, 1) && Holds(end, 2)
  {
    var start := World(0, None, map[1 := Instance(30, false, 0), 2 := Instance(30, false, 0)]);
    var steps := [Acquire(1), Tick(30), Acquire(2)];
    var first := Next(start, steps[0]);
    var second := Next(first, steps[1]);
    assert steps[1..] == [Tick(30), Acquire(2)] && steps[1..][1..] == [Acquire(2)];
    assert Run(start, steps) == Run(second, [Acquire(2)]);
    assert [Acquire(2)][1..] == [];
  }

  /** At most one instance believes it holds the lock. */
  ghost predicate OneBelief(w: World) {
    forall a, b :: Believes(w, a) && Believes(w, b) ==> a == b
  }

  predicate Believes(w: World, token: nat) {
    token in w.instances && w.instances[token].held
  }

  /** An acquire that finds no live lease while another instance still believes it has one. */
  ghost predicate Overtakes(w: World, s: Step) {
    && s.Acquire? && s.token in w.instances && Live(w.key, w.now) == None
    && exists other :: other != s.token && Believes(w, other)
  }

  /** A step leaves at most one believer exactly when it does not overtake one. */
  lemma BeliefsOverlapIff(w: World, s: Step)
    requires OneBelief(w)
    ensures OneBelief(Next(w, s)) <==> !Overtakes(w, s)
  {
    var next := Next(w, s);
    if Overtakes(w, s) {
      var other :| other != s.token && Believes(w, other);
      assert Believes(next, other) && Believes(next, s.token);
    } else {
      forall a, b | Believes(next, a) && Believes(next, b) ensures a == b {
        assert Believes(w, a) || (s.Acquire? && a == s.token && Live(w.key, w.now) == None);
        assert Believes(w, b) || (s.Acquire? && b == s.token && Live(w.key, w.now) == None);
      }
    }
  }

  /** Whoever is overtaken is past its ttl. */
  lemma OvertakenIsStale(w: World, other: nat)
    requires Exclusive(w) && Live(w.key, w.now) == None && Believes(w, other)
    ensures w.now >= w.instances[other].success + w.instances[other].ttl
  {
    assert !Holds(w, other);
  }

  ghost predicate NeverOvertakes(w: World, steps: seq<Step>)
    decreases |steps|
  {
    steps != [] ==> !Overtakes(w, steps[0]) && NeverOvertakes(Next(w, steps[0]), steps[1..])
  }

  ghost predicate OneBeliefThroughout(w: World, steps: seq<Step>)
    decreases |steps|
  {
    OneBelief(w) && (steps != [] ==> OneBeliefThroughout(Next(w, steps[0]), steps[1..]))
  }

  /** Over any run the belief itself stays exclusive exactly when no step overtakes. */
  lemma {:induction false} BeliefExclusiveIff(w: World, steps: seq<Step>)
    requires OneBelief(w)
    ensures OneBeliefThroughout(w, steps) <==> NeverOvertakes(w, steps)
    decreases |steps|
  {
    if steps != [] {
      BeliefsOverlapIff(w, steps[0]);
      if OneBelief(Next(w, steps[0])) {
        BeliefExclusiveIff(Next(w, steps[0]), steps[1..]);
      }
    }
  }

  /** A holder's refresh prolongs its lease by its ttl from now; its release frees the key at
      once, for whoever acquires next. */
  lemma HolderDecides(w: World, token: nat, other: nat)
    requires Exclusive(w) && Holds(w, token) && other in w.instances
    ensures var longer, free := Next(w, Refresh(token)), Next(w, Release(token));
            && Believes(longer, token) && longer.instances[token].success == w.now
            && longer.key == Some(Lease(token, w.now + w.instances[token].ttl))
            && free.key == None && !Believes(free, token)
            && var next := Next(free, Acquire(other));
               Believes(next, other) && next.key == Some(Lease(other, w.now + w.instances[other].ttl))
  {
  }

  /** A believer whose lease is gone or taken learns it at its next refresh or release, and
      touches nobody's key. */
  lemma StaleLearns(w: World, token: nat)
    requires Believes(w, token) && !Owns(w.key, w.now, token)
    ensures !Believes(Next(w, Refresh(token)), token) && Next(w, Refresh(token)).key == w.key
    ensures !Believes(Next(w, Release(token)), token) && Next(w, Release(token)).key == w.key
  {
  }

  /** An owner that acquires again is refused by its own lease and forgets that it owns
      it: it can neither refresh nor release it until it expires. */
  lemma AcquireTwiceForgets(w: World, token: nat)
    requires token in w.instances && Owns(w.key, w.now, token)
    ensures var again := Acquired(w, token);
            && again.key == w.key && !again.instances[token].held
            && Refreshed(again, token) == again && Released(again, token) == again
  {
  }

  // ---- the client and the server ----

  class Redis {
    var now: int
    var key: Option<Lease>

    constructor ()
      ensures now == 0 && key == None
    {
      now, key := 0, None;
    }

    /** SET key token NX PX ttl. */
    method SetIfAbsent(token: nat, ttl: nat) returns (ok: bool)
      modifies this
      ensures ok <==> Live(old(key), now) == None
      ensures key == (if ok then Some(Lease(token, now + ttl)) else old(key)) && now == old(now)
    {
      ok := Live(key, now) == None;
      if ok {
        key := Some(Lease(token, now + ttl));
      }
    }

    /** The refresh script: 1 when the key was still this token's. */
    method RefreshScript(token: nat, ttl: nat) returns (result: int)
      modifies this
      ensures result == (if Owns(old(key), now, token) then 1 else 0)
      ensures key == (if result == 1 then Some(Lease(token, now + ttl)) else old(key)) && now == old(now)
    {
      if Owns(key, now, token) {
        key := Some(Lease(token, now + ttl));
        return 1;
      }
      return 0;
    }

    /** The release script. */
    method ReleaseScript(token: nat) returns (result: int)
      modifies this
      ensures result == (if Owns(old(key), now, token) then 1 else 0)
      ensures key == (if result == 1 then None else old(key)) && now == old(now)
    {
      if Owns(key, now, token) {
        key := None;
        return 1;
      }
      return 0;
    }
  }

  class RuntimeLock {
    const redis: Redis
    const token: nat
    const ttl: nat
    var held: bool
    ghost var success: int

    constructor (redis: Redis, token: nat, ttl: nat)
      ensures this.redis == redis && this.token == token && this.ttl == ttl && !held
    {
      this.redis, this.token, this.ttl := redis, token, ttl;
      held, success := false, 0;
    }

    /** The world as this instance and the server see it. */
    ghost function Seen(): World
      reads this, redis
    {
      World(redis.now, redis.key, map[token := Instance(ttl, held, success)])
    }

    method Acquire() returns (ok: bool)
      modifies this, redis
      ensures Seen() == Acquired(old(Seen()), token) && ok == held
    {
      ok := redis.SetIfAbsent(token, ttl);
      held := ok;
      if ok { success := redis.now; }
    }

    method Refresh() returns (ok: bool)
      modifies this, redis
      ensures Seen() == Refreshed(old(Seen()), token) && ok == held
    {
      if !held {
        return false;
      }
      var result := redis.RefreshScript(token, ttl);
      held := result != 0;
      if held { success := redis.now; }
      return held;
    }

    method Release()
      modifies this, redis
      ensures Seen() == Released(old(Seen()), token) && !held
    {
      if !held {
        return;
      }
      var _ := redis.ReleaseScript(token);
      held := false;
    }
  }
}
