/**
 * The orchestrator lease: any number of clients take, renew and release one expiring key, each WATCH, GET and EXEC being
 * a separate step of an arbitrary interleaving. A transaction aborts when the watched key has changed or expired.
 */
module Lease {
  import opened Prelude

  datatype Held = Held(token: nat, expiry: int)

  datatype Kind = Renew | Release

  /** How far a renewal or release has come: key watched at a version, own token seen under the key. */
  datatype Op = Idle | Watching(kind: Kind, version: nat) | Matched(kind: Kind, version: nat)

  /**
   * `confirmed` is the moment of the renewal the client's loop is working on; the loop stops working when it turns to the
   * lock again, comes to rest, or dies.
   */
  datatype Client = Client(token: Option<nat>, op: Op, confirmed: Option<int>)

  /** A confirmed lease: granted at `start`, valid before `until`. */
  datatype Grant = Grant(client: nat, token: nat, start: int, until: int)

  /** `version` counts the changes of the key; `grants` is the history of confirmations, oldest first. */
  datatype World = World(ttl: int, now: int, key: Option<Held>, version: nat, nextToken: nat, clients: seq<Client>,
                         grants: seq<Grant>)

  datatype Step =
    | Tick(seconds: nat)
    | Acquire(client: nat)
    | Watch(client: nat, kind: Kind)
    | Get(client: nat)
    | Exec(client: nat)
    | Drop(client: nat)
    | Crash(client: nat)
    | Rest(client: nat)

  /** An expired key reads as absent. */
  function Live(w: World): Option<Held> {
    if w.key.Some? && w.now < w.key.value.expiry then w.key else None
  }

  function Seat(w: World, c: nat, client: Client): World {
    if c < |w.clients| then w.(clients := w.clients[c := client]) else w
  }

  /** SET key token NX EX ttl, with a fresh token that replaces the client's previous one even on failure. */
  function TryAcquire(w: World, c: nat): World
    requires c < |w.clients|
  {
    var w' := Seat(w, c, Client(Some(w.nextToken), Idle, None)).(nextToken := w.nextToken + 1);
    if Live(w).Some? then w'
    else
      w'.(key := Some(Held(w.nextToken, w.now + w.ttl)), version := w.version + 1,
          grants := w.grants + [Grant(c, w.nextToken, w.now, w.now + w.ttl)])
  }

  predicate ExecAborts(w: World, version: nat) {
    w.version != version || Live(w).None?
  }

  /** A release ends the client's own lease at once. */
  function Cut(grants: seq<Grant>, token: nat, now: int): (r: seq<Grant>)
    ensures |r| == |grants|
    ensures forall i :: 0 <= i < |r| ==>
      r[i] == if grants[i].token == token && now < grants[i].until then grants[i].(until := now) else grants[i]
  {
    if grants == [] then []
    else
      var n := |grants| - 1;
      Cut(grants[..n], token, now) +
      [if grants[n].token == token && now < grants[n].until then grants[n].(until := now) else grants[n]]
  }

  function Execute(w: World, c: nat): World
    requires c < |w.clients| && w.clients[c].op.Matched? && w.clients[c].token.Some?
  {
    var client := w.clients[c];
    var op, token := client.op, client.token.value;
    if ExecAborts(w, op.version) then Seat(w, c, client.(op := Idle))
    else if op.kind == Renew then
      Seat(w, c, client.(op := Idle, confirmed := Some(w.now))).(
        key := Some(w.key.value.(expiry := w.now + w.ttl)), version := w.version + 1,
        grants := w.grants + [Grant(c, token, w.now, w.now + w.ttl)])
    else
      Seat(w, c, client.(op := Idle)).(key := None, version := w.version + 1, grants := Cut(w.grants, token, w.now))
  }

  /** A disabled step changes nothing. */
  function Next(w: World, step: Step): World {
    match step
    case Tick(seconds) => w.(now := w.now + seconds)
    case Acquire(c) => if c < |w.clients| then TryAcquire(w, c) else w
    case Watch(c, kind) =>
      if c < |w.clients| && w.clients[c].token.Some? then
        Seat(w, c, w.clients[c].(op := Watching(kind, w.version), confirmed := None))
      else w
    case Get(c) =>
      if c < |w.clients| && w.clients[c].op.Watching? then
        var client := w.clients[c];
        var own := Live(w).Some? && Some(Live(w).value.token) == client.token;
        Seat(w, c, client.(op := if own then Matched(client.op.kind, client.op.version) else Idle))
      else w
    case Exec(c) =>
      if c < |w.clients| && w.clients[c].op.Matched? && w.clients[c].token.Some? then Execute(w, c) else w
    case Drop(c) => if c < |w.clients| then Seat(w, c, w.clients[c].(op := Idle)) else w
    case Crash(c) => if c < |w.clients| then Seat(w, c, Client(None, Idle, None)) else w
    case Rest(c) => if c < |w.clients| then Seat(w, c, w.clients[c].(confirmed := None)) else w
  }

  function Run(w: World, steps: seq<Step>): World {
    if steps == [] then w else Next(Run(w, steps[..|steps| - 1]), steps[|steps| - 1])
  }

  function Start(ttl: int, now: int, clients: nat): World {
    World(ttl, now, None, 0, 0, seq(clients, (_: int) => Client(None, Idle, None)), [])
  }

  // ---- what every interleaving keeps --------------------------------------------------------

  ghost predicate TokensFresh(w: World) {
    && (w.key.Some? ==> w.key.value.token < w.nextToken)
    && (forall c :: 0 <= c < |w.clients| && w.clients[c].token.Some? ==> w.clients[c].token.value < w.nextToken)
    && (forall i :: 0 <= i < |w.grants| ==> w.grants[i].token < w.nextToken)
  }

  /** A token names one client: those holding it and those it was granted to. */
  ghost predicate TokensOwned(w: World) {
    && (forall c, d :: 0 <= c < d < |w.clients| && w.clients[c].token.Some? ==> w.clients[c].token != w.clients[d].token)
    && (forall i, j :: 0 <= i < j < |w.grants| && w.grants[i].token == w.grants[j].token ==>
          w.grants[i].client == w.grants[j].client)
    && (forall i, c :: 0 <= i < |w.grants| && 0 <= c < |w.clients| && w.clients[c].token == Some(w.grants[i].token) ==>
          w.grants[i].client == c)
  }

  /** A lease that is still running is the key's, and the key outlives it. */
  ghost predicate RunningIsKey(w: World) {
    forall i :: 0 <= i < |w.grants| ==>
      && w.grants[i].start <= w.now
      && (w.now < w.grants[i].until ==>
            w.key.Some? && w.key.value.token == w.grants[i].token && w.grants[i].until <= w.key.value.expiry)
  }

  predicate KeyEndsInTime(w: World) {
    w.key.Some? ==> w.key.value.expiry <= w.now + w.ttl
  }

  /** A live key is a running lease of its whole lifetime. */
  ghost predicate KeyIsRunning(w: World) {
    Live(w).Some? ==>
      exists i :: 0 <= i < |w.grants| && w.grants[i].token == w.key.value.token &&
                  w.grants[i].until == w.key.value.expiry
  }

  /** A transaction that would not abort holds its own token under the key. */
  ghost predicate MatchedIsOwn(w: World) {
    forall c :: 0 <= c < |w.clients| ==>
      var op := w.clients[c].op;
      && (!op.Idle? ==> op.version <= w.version)
      && (op.Matched? && !ExecAborts(w, op.version) ==> w.clients[c].token == Some(w.key.value.token))
  }

  predicate Apart(a: Grant, b: Grant) {
    a.until <= b.start || b.until <= a.start
  }

  /** Leases of different clients never overlap. */
  ghost predicate Exclusive(grants: seq<Grant>) {
    forall i, j :: 0 <= i < j < |grants| && grants[i].client != grants[j].client ==> Apart(grants[i], grants[j])
  }

  ghost predicate Good(w: World) {
    && w.ttl >= 1
    && TokensFresh(w) && TokensOwned(w) && RunningIsKey(w) && KeyEndsInTime(w) && KeyIsRunning(w) && MatchedIsOwn(w) &&
       Exclusive(w.grants)
  }

  /** A new confirmation is apart from every lease of another client, when running leases carry its token. */
  lemma AddGrantKeepsExclusive(w: World, g: Grant)
    requires Exclusive(w.grants) && g.start == w.now
    requires forall i :: 0 <= i < |w.grants| && w.now < w.grants[i].until ==> w.grants[i].client == g.client
    ensures Exclusive(w.grants + [g])
  {
  }

  lemma TickKeeps(w: World, seconds: nat)
    requires Good(w)
    ensures Good(Next(w, Tick(seconds)))
  {
  }

  lemma AcquireKeeps(w: World, c: nat)
    requires Good(w) && c < |w.clients|
    ensures Good(TryAcquire(w, c))
  {
    hide Exclusive, Apart, Cut;
    var w' := TryAcquire(w, c);
    if Live(w).None? {
      var g := Grant(c, w.nextToken, w.now, w.now + w.ttl);
      AddGrantKeepsExclusive(w, g);
      assert w'.grants[|w.grants|] == g;
    } else {
      var i :| 0 <= i < |w.grants| && w.grants[i].token == w.key.value.token && w.grants[i].until == w.key.value.expiry;
      assert w'.grants[i].token == w'.key.value.token;
    }
  }

  /** Steps that only move a client's program counter. */
  lemma SeatKeeps(w: World, c: nat, client: Client)
    requires Good(w) && c < |w.clients|
    requires client.token == w.clients[c].token || client.token.None?
    requires !client.op.Idle? ==> client.op.version <= w.version
    requires client.op.Matched? && !ExecAborts(w, client.op.version) ==> client.token == Some(w.key.value.token)
    ensures Good(Seat(w, c, client))
  {
    var w' := Seat(w, c, client);
    if Live(w).Some? {
      var i :| 0 <= i < |w.grants| && w.grants[i].token == w.key.value.token && w.grants[i].until == w.key.value.expiry;
      assert w'.grants[i].token == w'.key.value.token;
    }
  }

  lemma RenewKeeps(w: World, c: nat)
    requires Good(w) && c < |w.clients| && w.clients[c].op.Matched? && w.clients[c].op.kind == Renew
    requires w.clients[c].token.Some? && !ExecAborts(w, w.clients[c].op.version)
    ensures Good(Execute(w, c))
  {
    hide Exclusive, Apart, Cut;
    var w' := Execute(w, c);
    var g := Grant(c, w.clients[c].token.value, w.now, w.now + w.ttl);
    assert g.token == w.key.value.token;
    AddGrantKeepsExclusive(w, g);
    assert w'.grants[|w.grants|] == g;
  }

  lemma CutKeepsExclusive(grants: seq<Grant>, token: nat, now: int)
    requires Exclusive(grants)
    requires forall i :: 0 <= i < |grants| ==> grants[i].start <= now
    ensures Exclusive(Cut(grants, token, now))
  {
    var cut := Cut(grants, token, now);
    forall i, j | 0 <= i < j < |cut| && cut[i].client != cut[j].client
      ensures Apart(cut[i], cut[j])
    {
      assert Apart(grants[i], grants[j]);
    }
  }

  lemma ReleaseKeeps(w: World, c: nat)
    requires Good(w) && c < |w.clients| && w.clients[c].op.Matched? && w.clients[c].op.kind == Release
    requires w.clients[c].token.Some? && !ExecAborts(w, w.clients[c].op.version)
    ensures Good(Execute(w, c))
  {
    hide Exclusive, Apart;
    CutKeepsExclusive(w.grants, w.clients[c].token.value, w.now);
  }

  lemma ExecKeeps(w: World, c: nat)
    requires Good(w) && c < |w.clients| && w.clients[c].op.Matched? && w.clients[c].token.Some?
    ensures Good(Execute(w, c))
  {
    var client := w.clients[c];
    if ExecAborts(w, client.op.version) {
      SeatKeeps(w, c, client.(op := Idle));
    } else if client.op.kind == Renew {
      RenewKeeps(w, c);
    } else {
      ReleaseKeeps(w, c);
    }
  }

  lemma NextKeeps(w: World, step: Step)
    requires Good(w)
    ensures Good(Next(w, step))
  {
    hide Good, Execute, TryAcquire, Live;
    match step
    case Tick(seconds) => TickKeeps(w, seconds);
    case Acquire(c) =>
      if c < |w.clients| {
        AcquireKeeps(w, c);
      }
    case Watch(c, kind) =>
      if c < |w.clients| && w.clients[c].token.Some? {
        SeatKeeps(w, c, w.clients[c].(op := Watching(kind, w.version), confirmed := None));
      }
    case Get(c) => GetKeeps(w, c);
    case Exec(c) =>
      if c < |w.clients| && w.clients[c].op.Matched? && w.clients[c].token.Some? {
        ExecKeeps(w, c);
      }
    case Drop(c) =>
      if c < |w.clients| {
        SeatKeeps(w, c, w.clients[c].(op := Idle));
      }
    case Crash(c) =>
      if c < |w.clients| {
        SeatKeeps(w, c, Client(None, Idle, None));
      }
    case Rest(c) =>
      if c < |w.clients| {
        RestKeeps(w, c);
      }
  }

  lemma RestKeeps(w: World, c: nat)
    requires Good(w) && c < |w.clients|
    ensures Good(Next(w, Rest(c)))
  {
    SeatKeeps(w, c, w.clients[c].(confirmed := None));
  }

  lemma GetKeeps(w: World, c: nat)
    requires Good(w)
    ensures Good(Next(w, Get(c)))
  {
    if c < |w.clients| && w.clients[c].op.Watching? {
      var client := w.clients[c];
      var own := Live(w).Some? && Some(Live(w).value.token) == client.token;
      SeatKeeps(w, c, client.(op := if own then Matched(client.op.kind, client.op.version) else Idle));
    }
  }

  lemma StartGood(ttl: int, now: int, clients: nat)
    requires ttl >= 1
    ensures Good(Start(ttl, now, clients))
  {
  }

  lemma {:induction false} RunKeepsGood(ttl: int, now: int, clients: nat, steps: seq<Step>)
    requires ttl >= 1
    ensures Good(Run(Start(ttl, now, clients), steps))
  {
    if steps == [] {
      StartGood(ttl, now, clients);
    } else {
      RunKeepsGood(ttl, now, clients, steps[..|steps| - 1]);
      NextKeeps(Run(Start(ttl, now, clients), steps[..|steps| - 1]), steps[|steps| - 1]);
    }
  }

  // ---- main results -----------------------------------------------------------------------

  /** A client inside a confirmed lease of its own at a moment. */
  ghost predicate InLease(w: World, c: nat, t: int) {
    exists i :: 0 <= i < |w.grants| && w.grants[i].client == c && w.grants[i].start <= t < w.grants[i].until
  }

  /** In every interleaving, at every moment at most one client is inside a confirmed lease. */
  lemma LeaseExclusion(ttl: int, now: int, clients: nat, steps: seq<Step>, c: nat, d: nat, t: int)
    requires ttl >= 1
    ensures
      var w := Run(Start(ttl, now, clients), steps);
      InLease(w, c, t) && InLease(w, d, t) ==> c == d
  {
    RunKeepsGood(ttl, now, clients, steps);
    var w := Run(Start(ttl, now, clients), steps);
    if InLease(w, c, t) && InLease(w, d, t) {
      var i :| 0 <= i < |w.grants| && w.grants[i].client == c && w.grants[i].start <= t < w.grants[i].until;
      var j :| 0 <= j < |w.grants| && w.grants[j].client == d && w.grants[j].start <= t < w.grants[j].until;
      if c != d {
        GrantsApart(w, w.grants[i], w.grants[j]);
      }
    }
  }

  /** A renewal or release only ever extends or deletes a live key holding the client's own token. */
  lemma ForeignKeyUntouched(w: World, c: nat)
    requires Good(w)
    ensures
      var w' := Next(w, Exec(c));
      w'.key != w.key ==>
        && c < |w.clients| && Live(w).Some? && w.clients[c].token == Some(w.key.value.token)
        && (w'.key.None? || w'.key == Some(Held(w.key.value.token, w.now + w.ttl)))
  {
  }

  /** An attempt to acquire succeeds exactly when no confirmed lease is running. */
  lemma AcquireSucceedsIff(w: World, c: nat)
    requires Good(w) && c < |w.clients|
    ensures |TryAcquire(w, c).grants| == |w.grants| + 1 <==> forall d :: !InLease(w, d, w.now)
  {
    if Live(w).Some? {
      var i :| 0 <= i < |w.grants| && w.grants[i].token == w.key.value.token && w.grants[i].until == w.key.value.expiry;
      assert InLease(w, w.grants[i].client, w.now);
    }
  }

  // ---- working under the lease ----------------------------------------------------------------

  /** A client works on a whole lease of its own, from its confirmation on, and has no transaction under way. */
  ghost predicate WorksOnLease(w: World, c: nat)
    requires c < |w.clients|
  {
    var client := w.clients[c];
    client.confirmed.Some? ==>
      && client.op.Idle? && client.token.Some?
      && Grant(c, client.token.value, client.confirmed.value, client.confirmed.value + w.ttl) in w.grants
  }

  ghost predicate WorkOnLeases(w: World) {
    forall c :: 0 <= c < |w.clients| ==> WorksOnLease(w, c)
  }

  lemma NoClientWorks(ttl: int, now: int, clients: nat)
    ensures WorkOnLeases(Start(ttl, now, clients))
  {
  }

  lemma CutSpares(grants: seq<Grant>, token: nat, now: int, g: Grant)
    requires g in grants && g.token != token
    ensures g in Cut(grants, token, now)
  {
    var i :| 0 <= i < |grants| && grants[i] == g;
    assert Cut(grants, token, now)[i] == g;
  }

  lemma ExecKeepsWork(w: World, c: nat)
    requires Good(w) && WorkOnLeases(w) && c < |w.clients| && w.clients[c].op.Matched? && w.clients[c].token.Some?
    ensures WorkOnLeases(Execute(w, c))
  {
    var w' := Execute(w, c);
    forall d | 0 <= d < |w'.clients|
      ensures WorksOnLease(w', d)
    {
      assert WorksOnLease(w, d);
      if d == c {
        assert w.clients[c].confirmed.None?;
        if w'.clients[c].confirmed.Some? {
          assert w'.grants[|w.grants|] in w'.grants;
        }
      } else if w.clients[d].confirmed.Some? && w.clients[c].op.kind == Release && !ExecAborts(w, w.clients[c].op.version) {
        OtherToken(w, c, d);
        CutSpares(w.grants, w.clients[c].token.value, w.now,
                  Grant(d, w.clients[d].token.value, w.clients[d].confirmed.value, w.clients[d].confirmed.value + w.ttl));
      }
    }
  }

  lemma OtherToken(w: World, c: nat, d: nat)
    requires TokensOwned(w) && c < |w.clients| && d < |w.clients| && c != d && w.clients[c].token.Some?
    ensures w.clients[c].token != w.clients[d].token
  {
  }

  lemma NextKeepsWork(w: World, step: Step)
    requires Good(w) && WorkOnLeases(w)
    ensures WorkOnLeases(Next(w, step))
  {
    hide Good, Execute, Live;
    var w' := Next(w, step);
    if step.Exec? && step.client < |w.clients| && w.clients[step.client].op.Matched? && w.clients[step.client].token.Some? {
      ExecKeepsWork(w, step.client);
    } else {
      forall d | 0 <= d < |w'.clients|
        ensures WorksOnLease(w', d)
      {
        assert WorksOnLease(w, d);
      }
    }
  }

  lemma {:induction false} RunKeepsWork(ttl: int, now: int, clients: nat, steps: seq<Step>)
    requires ttl >= 1
    ensures WorkOnLeases(Run(Start(ttl, now, clients), steps)) && Run(Start(ttl, now, clients), steps).ttl == ttl
  {
    hide Good, WorkOnLeases;
    if steps == [] {
      NoClientWorks(ttl, now, clients);
    } else {
      var before := steps[..|steps| - 1];
      RunKeepsWork(ttl, now, clients, before);
      RunKeepsGood(ttl, now, clients, before);
      NextKeepsWork(Run(Start(ttl, now, clients), before), steps[|steps| - 1]);
    }
  }

  predicate Works(w: World, c: nat) {
    c < |w.clients| && w.clients[c].confirmed.Some?
  }

  /** The client still works although its lease has run out. */
  predicate Overruns(w: World, c: nat) {
    Works(w, c) && w.clients[c].confirmed.value + w.ttl <= w.now
  }

  /**
   * In every interleaving, when two clients work at once the one confirmed first overruns: its lease had ended before
   * the other was confirmed.
   */
  lemma DualWorkIsOverrun(ttl: int, now: int, clients: nat, steps: seq<Step>, c: nat, d: nat)
    requires ttl >= 1
    ensures
      var w := Run(Start(ttl, now, clients), steps);
      c != d && Works(w, c) && Works(w, d) && w.clients[c].confirmed.value <= w.clients[d].confirmed.value ==>
        w.clients[c].confirmed.value + ttl <= w.clients[d].confirmed.value && Overruns(w, c)
  {
    var w := Run(Start(ttl, now, clients), steps);
    RunKeepsGood(ttl, now, clients, steps);
    RunKeepsWork(ttl, now, clients, steps);
    if c != d && Works(w, c) && Works(w, d) {
      assert WorksOnLease(w, c) && WorksOnLease(w, d);
      GrantsApart(w, Grant(c, w.clients[c].token.value, w.clients[c].confirmed.value, w.clients[c].confirmed.value + ttl),
                  Grant(d, w.clients[d].token.value, w.clients[d].confirmed.value, w.clients[d].confirmed.value + ttl));
    }
  }

  lemma GrantsApart(w: World, a: Grant, b: Grant)
    requires Good(w) && a in w.grants && b in w.grants && a.client != b.client
    ensures Apart(a, b) && a.start <= w.now && b.start <= w.now
  {
    var i :| 0 <= i < |w.grants| && w.grants[i] == a;
    var j :| 0 <= j < |w.grants| && w.grants[j] == b;
    assert i < j ==> Apart(w.grants[i], w.grants[j]);
    assert j < i ==> Apart(w.grants[j], w.grants[i]);
  }

  /** If in a state no client works beyond its lease, at most one client works there. */
  lemma PunctualWorkIsExclusive(ttl: int, now: int, clients: nat, steps: seq<Step>)
    requires ttl >= 1
    ensures
      var w := Run(Start(ttl, now, clients), steps);
      (forall c: nat :: !Overruns(w, c)) ==> forall c: nat, d: nat :: Works(w, c) && Works(w, d) ==> c == d
  {
    var w := Run(Start(ttl, now, clients), steps);
    forall c: nat, d: nat | (forall e: nat :: !Overruns(w, e)) && Works(w, c) && Works(w, d)
      ensures c == d
    {
      DualWorkIsOverrun(ttl, now, clients, steps, c, d);
      DualWorkIsOverrun(ttl, now, clients, steps, d, c);
    }
  }

  function Renewal(c: nat): seq<Step> {
    [Acquire(c), Watch(c, Renew), Get(c), Exec(c)]
  }

  /** Acquire, renew, and work on for a whole lease while another client does the same. */
  function OverrunSteps(ttl: nat): seq<Step> {
    Renewal(0) + [Tick(ttl)] + Renewal(1)
  }

  lemma {:induction false} RunConcat(w: World, a: seq<Step>, b: seq<Step>)
    ensures Run(w, a + b) == Run(Run(w, a), b)
  {
    hide Next;
    if b == [] {
      assert a + b == a;
    } else {
      var n := |b| - 1;
      RunConcat(w, a, b[..n]);
      assert (a + b)[..|a| + n] == a + b[..n];
    }
  }

  lemma FourSteps(w: World, a: Step, b: Step, c: Step, d: Step)
    ensures Run(w, [a, b, c, d]) == Next(Next(Next(Next(w, a), b), c), d)
  {
    hide Next;
    assert [a, b, c, d][..3] == [a, b, c] && [a, b, c][..2] == [a, b] && [a, b][..1] == [a] && [a][..0] == [];
    assert Run(w, [a]) == Next(w, a);
    assert Run(w, [a, b]) == Next(Run(w, [a]), b);
    assert Run(w, [a, b, c]) == Next(Run(w, [a, b]), c);
  }

  /** Acquiring a free key and renewing it leaves the client working. */
  lemma RenewalWorks(w: World, c: nat)
    requires c < |w.clients| && Live(w).None? && w.ttl >= 1
    ensures
      var w' := Run(w, Renewal(c));
      && w'.now == w.now && w'.ttl == w.ttl && |w'.clients| == |w.clients|
      && w'.clients[c].confirmed == Some(w.now)
      && w'.key.Some? && w'.key.value.expiry == w.now + w.ttl
      && forall d :: 0 <= d < |w.clients| && d != c ==> w'.clients[d] == w.clients[d]
  {
    FourSteps(w, Acquire(c), Watch(c, Renew), Get(c), Exec(c));
    var w1 := Next(w, Acquire(c));
    assert w1.clients[c] == Client(Some(w.nextToken), Idle, None) && Live(w1) == Some(Held(w.nextToken, w.now + w.ttl));
    var w2 := Next(w1, Watch(c, Renew));
    assert w2.clients[c] == Client(Some(w.nextToken), Watching(Renew, w1.version), None);
    var w3 := Next(w2, Get(c));
    assert w3.clients[c] == Client(Some(w.nextToken), Matched(Renew, w1.version), None);
  }

  /** The overrun happens: whatever the lease, this run ends with both clients working. */
  lemma BothWork(ttl: nat, now: int)
    requires ttl >= 1
    ensures
      var w := Run(Start(ttl, now, 2), OverrunSteps(ttl));
      && Works(w, 0) && Works(w, 1) && Overruns(w, 0) && !Overruns(w, 1)
      && |w.clients| == 2 && w.now == now + ttl && w.ttl == ttl
      && w.clients[0].confirmed == Some(now) && w.clients[1].confirmed == Some(now + ttl)
  {
    hide Run, Next;
    var w0 := Start(ttl, now, 2);
    RunConcat(w0, Renewal(0) + [Tick(ttl)], Renewal(1));
    RunConcat(w0, Renewal(0), [Tick(ttl)]);
    RenewalWorks(w0, 0);
    var w1 := Run(w0, Renewal(0));
    OneTick(w1, ttl);
    RenewalWorks(Run(w1, [Tick(ttl)]), 1);
  }

  lemma OneTick(w: World, seconds: nat)
    ensures Run(w, [Tick(seconds)]) == w.(now := w.now + seconds)
  {
    assert [Tick(seconds)][..0] == [];
    assert Run(w, []) == w;
  }

  // ---- what single operations achieve -----------------------------------------------------------

  /** The client holds the key: it is live and carries the client's own token. */
  predicate Holds(w: World, c: nat) {
    c < |w.clients| && Live(w).Some? && w.clients[c].token == Some(w.key.value.token)
  }

  /**
   * An attempt draws a fresh token in any case. With the key free it takes it for a whole lease and is recorded; with the
   * key live it changes nothing but that the client has lost whatever token it had, and so never holds the key.
   */
  lemma AcquireTakesOrLoses(w: World, c: nat)
    requires Good(w) && c < |w.clients|
    ensures
      var w' := Next(w, Acquire(c));
      && w'.nextToken == w.nextToken + 1 && w'.now == w.now && w'.ttl == w.ttl
      && w'.clients == w.clients[c := Client(Some(w.nextToken), Idle, None)]
      && (if Live(w).None? then
            && Holds(w', c) && w'.key == Some(Held(w.nextToken, w.now + w.ttl)) && w'.version > w.version
            && w'.grants == w.grants + [Grant(c, w.nextToken, w.now, w.now + w.ttl)]
          else
            !Holds(w', c) && w'.key == w.key && w'.version == w.version && w'.grants == w.grants)
  {
  }

  function Undisturbed(c: nat, kind: Kind): seq<Step> {
    [Watch(c, kind), Get(c), Exec(c)]
  }

  lemma ThreeSteps(w: World, a: Step, b: Step, c: Step)
    ensures Run(w, [a, b, c]) == Next(Next(Next(w, a), b), c)
  {
    hide Next;
    assert [a, b, c][..2] == [a, b] && [a, b][..1] == [a] && [a][..0] == [];
    assert Run(w, [a]) == Next(w, a);
    assert Run(w, [a, b]) == Next(Run(w, [a]), b);
  }

  lemma UndisturbedMatches(w: World, c: nat, kind: Kind)
    requires c < |w.clients| && w.clients[c].token.Some?
    ensures
      var w2 := Next(Next(w, Watch(c, kind)), Get(c));
      w2 == w.(clients := w.clients[c := w.clients[c].(
        op := if Holds(w, c) then Matched(kind, w.version) else Idle, confirmed := None)])
  {
    var w1 := Next(w, Watch(c, kind));
    assert w1.clients[c] == w.clients[c].(op := Watching(kind, w.version), confirmed := None);
  }

  /**
   * A renewal that nothing disturbs: the holder has the key for a whole lease from now and goes to work; anyone else
   * changes neither key nor history and does not work.
   */
  lemma RenewalExtends(w: World, c: nat)
    requires c < |w.clients| && w.clients[c].token.Some?
    ensures
      var w' := Run(w, Undisturbed(c, Renew));
      if Holds(w, c) then
        && w'.key == Some(Held(w.key.value.token, w.now + w.ttl)) && Works(w', c) && w'.clients[c].confirmed == Some(w.now)
        && w'.grants == w.grants + [Grant(c, w.key.value.token, w.now, w.now + w.ttl)]
      else w'.key == w.key && w'.version == w.version && w'.grants == w.grants && !Works(w', c)
  {
    hide Run;
    ThreeSteps(w, Watch(c, Renew), Get(c), Exec(c));
    UndisturbedMatches(w, c, Renew);
  }

  /**
   * A release that nothing disturbs: the holder's key is gone, its leases are over, and any client, at once, takes a whole
   * lease; anyone else's release changes neither key nor history.
   */
  lemma ReleaseFrees(w: World, c: nat, d: nat)
    requires Good(w) && c < |w.clients| && d < |w.clients| && w.clients[c].token.Some?
    ensures
      var w' := Run(w, Undisturbed(c, Release));
      if Holds(w, c) then
        && w'.key.None? && !InLease(w', c, w'.now)
        && Holds(Next(w', Acquire(d)), d) && InLease(Next(w', Acquire(d)), d, w.now)
      else w'.key == w.key && w'.version == w.version && w'.grants == w.grants
  {
    hide Run, Good;
    ThreeSteps(w, Watch(c, Release), Get(c), Exec(c));
    UndisturbedMatches(w, c, Release);
    if Holds(w, c) {
      NextKeeps(w, Watch(c, Release));
      NextKeeps(Next(w, Watch(c, Release)), Get(c));
      var w2 := Next(Next(w, Watch(c, Release)), Get(c));
      NextKeeps(w2, Exec(c));
      var w' := Next(w2, Exec(c));
      FreeKeyIsTaken(w', d);
    }
  }

  /** With the key free no lease is running, and whoever asks next takes a whole one. */
  lemma FreeKeyIsTaken(w: World, d: nat)
    requires Good(w) && Live(w).None? && d < |w.clients|
    ensures forall c :: !InLease(w, c, w.now)
    ensures Holds(Next(w, Acquire(d)), d) && InLease(Next(w, Acquire(d)), d, w.now)
  {
    var w' := Next(w, Acquire(d));
    assert w'.grants[|w.grants|] == Grant(d, w.nextToken, w.now, w.now + w.ttl);
  }

  /** A transaction whose key was touched since it was watched does nothing but end. */
  lemma TouchedKeyAborts(w: World, c: nat)
    requires c < |w.clients| && w.clients[c].op.Matched? && w.clients[c].token.Some?
    requires w.version != w.clients[c].op.version || Live(w).None?
    ensures Next(w, Exec(c)) == w.(clients := w.clients[c := w.clients[c].(op := Idle)])
  {
  }

  lemma KeyOutlived(w: World, seconds: nat)
    requires Good(w) && seconds >= w.ttl
    ensures Live(Next(w, Tick(seconds))).None?
  {
  }

  /**
   * A crashed client has no part in the lock until it acquires again, and leaves the key as it was; when nobody renews for
   * a lease's length, the key is free and whoever asks next takes it.
   */
  lemma CrashedLeaseEnds(w: World, c: nat, d: nat, kind: Kind, seconds: nat)
    requires Good(w) && c < |w.clients| && d < |w.clients| && seconds >= w.ttl
    ensures
      var w' := Next(w, Crash(c));
      && !Holds(w', c) && !Works(w', c) && w'.key == w.key && w'.grants == w.grants
      && Next(w', Watch(c, kind)) == w' && Next(w', Get(c)) == w' && Next(w', Exec(c)) == w'
      && Live(Next(w', Tick(seconds))).None?
      && Holds(Next(Next(w', Tick(seconds)), Acquire(d)), d)
  {
    hide Good, TryAcquire, Execute;
    NextKeeps(w, Crash(c));
    NextKeeps(Next(w, Crash(c)), Tick(seconds));
    KeyOutlived(w, seconds);
    FreeKeyIsTaken(Next(Next(w, Crash(c)), Tick(seconds)), d);
  }

  /** Giving a transaction up, and coming to rest, leave key and history alone; who rests does not work. */
  lemma DroppingIsLocal(w: World, c: nat)
    requires c < |w.clients|
    ensures
      && Next(w, Drop(c)) == w.(clients := w.clients[c := w.clients[c].(op := Idle)])
      && Next(w, Rest(c)) == w.(clients := w.clients[c := w.clients[c].(confirmed := None)])
  {
  }

  // ---- how long work may last -------------------------------------------------------------------

  /** No client works `limit` seconds or more after its confirmation. */
  ghost predicate WorkWithin(w: World, limit: int) {
    forall c: nat :: Works(w, c) ==> w.now < w.clients[c].confirmed.value + limit
  }

  ghost predicate OneWorks(w: World) {
    forall c: nat, d: nat :: Works(w, c) && Works(w, d) ==> c == d
  }

  /** Reachable worlds whose work stays within the limit have at most one client at work. */
  ghost predicate LimitExcludes(ttl: int, limit: int) {
    forall now: int, clients: nat, steps: seq<Step> ::
      WorkWithin(Run(Start(ttl, now, clients), steps), limit) ==> OneWorks(Run(Start(ttl, now, clients), steps))
  }

  /** Bounded work excludes dual work exactly when the bound is no longer than the lease. */
  lemma LimitIff(ttl: nat, limit: int)
    requires ttl >= 1
    ensures LimitExcludes(ttl, limit) <==> limit <= ttl
  {
    hide Run, Start;
    if limit <= ttl {
      forall now: int, clients: nat, steps: seq<Step> | WorkWithin(Run(Start(ttl, now, clients), steps), limit)
        ensures OneWorks(Run(Start(ttl, now, clients), steps))
      {
        RunKeepsWork(ttl, now, clients, steps);
        PunctualWorkIsExclusive(ttl, now, clients, steps);
      }
    } else {
      BothWork(ttl, 0);
      assert WorkWithin(Run(Start(ttl, 0, 2), OverrunSteps(ttl)), limit);
    }
  }
}
