/** The event subscription: the outbox paged out batch by batch while events are still being appended. */
module Events {
  import opened Records

  /** An outbox row; ids are handed out in increasing order, from 1. */
  datatype Entry = Entry(id: nat, event: Event)

  ghost predicate Increasing(outbox: seq<Entry>) {
    && (forall n | 0 <= n < |outbox| :: outbox[n].id > 0)
    && (forall m, n | 0 <= m < n < |outbox| :: outbox[m].id < outbox[n].id)
  }

  predicate Wanted(e: Entry, pool: Option<PoolKey>, since: nat) {
    e.id > since && (pool.None? || e.event.pool == pool.value)
  }

  /** The rows after id since that the subscription asks for, in id order. */
  ghost function Since(outbox: seq<Entry>, pool: Option<PoolKey>, since: nat): seq<Entry> {
    if outbox == [] then []
    else
      var before := Since(outbox[..|outbox| - 1], pool, since);
      var last := outbox[|outbox| - 1];
      if Wanted(last, pool, since) then before + [last] else before
  }

  /** Every row the subscription asks for: what an unpaged subscription would send. */
  ghost function Matching(outbox: seq<Entry>, pool: Option<PoolKey>): seq<Entry> {
    Since(outbox, pool, 0)
  }

  lemma {:induction false} SinceGrows(a: seq<Entry>, b: seq<Entry>, pool: Option<PoolKey>, since: nat)
    ensures Since(a + b, pool, since) == Since(a, pool, since) + Since(b, pool, since)
    decreases |b|
  {
    if b == [] {
      assert a + b == a;
    } else {
      var last := |b| - 1;
      assert (a + b)[..|a + b| - 1] == a + b[..last];
      SinceGrows(a, b[..last], pool, since);
    }
  }

  lemma {:induction false} SinceComesFrom(outbox: seq<Entry>, pool: Option<PoolKey>, since: nat, n: nat)
    requires n < |Since(outbox, pool, since)|
    ensures Since(outbox, pool, since)[n] in outbox && Wanted(Since(outbox, pool, since)[n], pool, since)
  {
    if outbox != [] {
      var before := Since(outbox[..|outbox| - 1], pool, since);
      if n < |before| {
        SinceComesFrom(outbox[..|outbox| - 1], pool, since, n);
      }
    }
  }

  lemma {:induction false} InSince(outbox: seq<Entry>, pool: Option<PoolKey>, since: nat, e: Entry)
    ensures e in Since(outbox, pool, since) <==>
            e in outbox && e.id > since && (pool.None? || e.event.pool == pool.value)
  {
    if outbox != [] {
      var rest, last := outbox[..|outbox| - 1], outbox[|outbox| - 1];
      InSince(rest, pool, since, e);
      assert outbox == rest + [last];
      assert e in outbox <==> e in rest || e == last;
    }
  }

  lemma {:induction false} SinceInOrder(outbox: seq<Entry>, pool: Option<PoolKey>, since: nat, m: nat, n: nat)
    requires Increasing(outbox) && m < n < |Since(outbox, pool, since)|
    ensures Since(outbox, pool, since)[m].id < Since(outbox, pool, since)[n].id
  {
    if outbox != [] {
      var rest, last := outbox[..|outbox| - 1], outbox[|outbox| - 1];
      if n < |Since(rest, pool, since)| {
        SinceInOrder(rest, pool, since, m, n);
      } else {
        SinceComesFrom(rest, pool, since, m);
        assert outbox[|outbox| - 1] == last;
      }
    }
  }

  /** Exactly the rows of the asked pool (or of all pools) with an id after since, in id order. */
  lemma SinceMeans(outbox: seq<Entry>, pool: Option<PoolKey>, since: nat)
    ensures forall e :: e in Since(outbox, pool, since) <==>
              e in outbox && e.id > since && (pool.None? || e.event.pool == pool.value)
    ensures Increasing(outbox) ==>
              forall m, n | 0 <= m < n < |Since(outbox, pool, since)| ::
                Since(outbox, pool, since)[m].id < Since(outbox, pool, since)[n].id
  {
    hide Since;
    forall e ensures e in Since(outbox, pool, since) <==>
                     e in outbox && e.id > since && (pool.None? || e.event.pool == pool.value) {
      InSince(outbox, pool, since, e);
    }
    if Increasing(outbox) {
      forall m, n | 0 <= m < n < |Since(outbox, pool, since)|
        ensures Since(outbox, pool, since)[m].id < Since(outbox, pool, since)[n].id
      {
        SinceInOrder(outbox, pool, since, m, n);
      }
    }
  }

  function LastId(sent: seq<Entry>): nat {
    if sent == [] then 0 else sent[|sent| - 1].id
  }

  /** A prefix of those rows: of the asked pool, from the outbox, in id order, and with nothing of the
      pool left out up to the last id. */
  ghost predicate SentInOrder(outbox: seq<Entry>, pool: Option<PoolKey>, sent: seq<Entry>) {
    && (forall n | 0 <= n < |sent| :: sent[n] in outbox && (pool.None? || sent[n].event.pool == pool.value))
    && (forall m, n | 0 <= m < n < |sent| :: sent[m].id < sent[n].id)
    && (forall e | e in outbox && (pool.None? || e.event.pool == pool.value) :: e in sent || e.id > LastId(sent))
  }

  lemma PrefixMeans(outbox: seq<Entry>, pool: Option<PoolKey>, sent: seq<Entry>)
    requires Increasing(outbox) && sent <= Matching(outbox, pool)
    ensures SentInOrder(outbox, pool, sent)
    ensures |sent| == |Matching(outbox, pool)| ==>
              forall e | e in outbox && (pool.None? || e.event.pool == pool.value) :: e in sent
  {
    var all := Matching(outbox, pool);
    SinceMeans(outbox, pool, 0);
    forall n | 0 <= n < |sent| ensures sent[n] in outbox && (pool.None? || sent[n].event.pool == pool.value) {
      assert sent[n] == all[n] && all[n] in all;
    }
    forall e | e in outbox && (pool.None? || e.event.pool == pool.value)
      ensures e in all && (e in sent || e.id > LastId(sent))
    {
      assert e in all;
      var k :| 0 <= k < |all| && all[k] == e;
      if k < |sent| {
        assert sent[k] == e;
      }
    }
  }

  lemma {:induction false} NothingSince(outbox: seq<Entry>, pool: Option<PoolKey>, since: nat)
    requires forall n | 0 <= n < |outbox| :: outbox[n].id <= since
    ensures Since(outbox, pool, since) == []
  {
    if outbox != [] {
      NothingSince(outbox[..|outbox| - 1], pool, since);
    }
  }

  /** Asking again after the last id sent resumes exactly where the sending stopped. */
  lemma {:induction false} Resumes(outbox: seq<Entry>, pool: Option<PoolKey>, k: nat)
    requires Increasing(outbox) && k <= |Matching(outbox, pool)|
    ensures Since(outbox, pool, LastId(Matching(outbox, pool)[..k])) == Matching(outbox, pool)[k..]
  {
    if outbox != [] {
      var rest := outbox[..|outbox| - 1];
      var last := outbox[|outbox| - 1];
      var all := Matching(rest, pool);
      if k <= |all| {
        Resumes(rest, pool, k);
        assert Matching(outbox, pool)[..k] == all[..k];
        if k > 0 {
          SinceComesFrom(rest, pool, 0, k - 1);
          assert LastId(all[..k]) < last.id;
        }
        assert (all + [last])[k..] == all[k..] + [last];
      } else {
        assert LastId(Matching(outbox, pool)[..k]) == last.id;
        NothingSince(rest, pool, last.id);
      }
    }
  }

  function Min(a: nat, b: nat): nat {
    if a < b then a else b
  }

  lemma FirstOnes(outbox: seq<Entry>, pool: Option<PoolKey>, since: nat, limit: nat, r: seq<Entry>)
    requires r == Since(outbox, pool, since)[..Min(limit, |Since(outbox, pool, since)|)]
    ensures forall n | 0 <= n < |r| ::
              r[n] in outbox && r[n].id > since && (pool.None? || r[n].event.pool == pool.value)
    ensures Increasing(outbox) ==> forall m, n | 0 <= m < n < |r| :: r[m].id < r[n].id
    ensures Increasing(outbox) ==>
              forall e | e in outbox && e.id > since && (pool.None? || e.event.pool == pool.value) ::
                e in r || (|r| == limit && forall n | 0 <= n < |r| :: r[n].id < e.id)
  {
    var all := Since(outbox, pool, since);
    SinceMeans(outbox, pool, since);
    forall n | 0 <= n < |r|
      ensures r[n] in outbox && r[n].id > since && (pool.None? || r[n].event.pool == pool.value)
    {
      assert all[n] in all;
    }
    forall e | e in outbox && e.id > since && (pool.None? || e.event.pool == pool.value)
      ensures e in r || (|r| == limit && (Increasing(outbox) ==> forall n | 0 <= n < |r| :: r[n].id < e.id))
    {
      assert e in all;
      var k :| 0 <= k < |all| && all[k] == e;
      if k < |r| {
        assert r[k] == e;
      }
    }
  }

  /** ListEventsSince and ListAllEventsSince: the rows asked for in id order, at most limit of them. */
  method ListEventsSince(outbox: seq<Entry>, pool: Option<PoolKey>, since: nat, limit: nat) returns (r: seq<Entry>)
    ensures |r| <= limit
    ensures forall n | 0 <= n < |r| ::
              r[n] in outbox && r[n].id > since && (pool.None? || r[n].event.pool == pool.value)
    ensures Increasing(outbox) ==> forall m, n | 0 <= m < n < |r| :: r[m].id < r[n].id
    ensures Increasing(outbox) ==>
              forall e | e in outbox && e.id > since && (pool.None? || e.event.pool == pool.value) ::
                e in r || (|r| == limit && forall n | 0 <= n < |r| :: r[n].id < e.id)
    ensures r == Since(outbox, pool, since)[..Min(limit, |Since(outbox, pool, since)|)]
  {
    r := [];
    var n := 0;
    while n < |outbox| && |r| < limit
      invariant n <= |outbox| && |r| <= limit && r == Since(outbox[..n], pool, since)
    {
      assert outbox[..n + 1][..n] == outbox[..n];
      if Wanted(outbox[n], pool, since) {
        r := r + [outbox[n]];
      }
      n := n + 1;
    }
    assert outbox == outbox[..n] + outbox[n..];
    SinceGrows(outbox[..n], outbox[n..], pool, since);
    FirstOnes(outbox, pool, since, limit, r);
  }

  /** One fetch: what had been appended since the fetch before it, and whether the query answered. */
  datatype Round = Round(arrived: seq<Entry>, ok: bool)

  /** The outbox as the n-th fetch finds it. */
  ghost function Outbox(rounds: seq<Round>, n: nat): seq<Entry>
    requires n <= |rounds|
  {
    if n == 0 then [] else Outbox(rounds, n - 1) + rounds[n - 1].arrived
  }

  lemma {:induction false} OutboxGrows(rounds: seq<Round>, m: nat, n: nat)
    requires m <= n <= |rounds|
    ensures Outbox(rounds, m) <= Outbox(rounds, n)
    decreases n
  {
    if m < n {
      OutboxGrows(rounds, m, n - 1);
    }
  }

  lemma MatchingGrows(rounds: seq<Round>, pool: Option<PoolKey>, m: nat, n: nat)
    requires m <= n <= |rounds|
    ensures Matching(Outbox(rounds, m), pool) <= Matching(Outbox(rounds, n), pool)
  {
    OutboxGrows(rounds, m, n);
    var a, b := Outbox(rounds, m), Outbox(rounds, n);
    assert b == a + b[|a|..];
    SinceGrows(a, b[|a|..], pool, 0);
  }

  lemma PrefixOf(a: seq<Entry>, b: seq<Entry>, c: seq<Entry>)
    requires a <= b <= c
    ensures a <= c
  {
  }

  /** What has been sent stays a prefix as the outbox grows, and the outbox stays in id order. */
  lemma NextRound(rounds: seq<Round>, pool: Option<PoolKey>, n: nat, sent: seq<Entry>)
    requires n < |rounds| && Increasing(Outbox(rounds, |rounds|)) && sent <= Matching(Outbox(rounds, n), pool)
    ensures Increasing(Outbox(rounds, n + 1)) && sent <= Matching(Outbox(rounds, n + 1), pool)
  {
    MatchingGrows(rounds, pool, n, n + 1);
    PrefixOf(sent, Matching(Outbox(rounds, n), pool), Matching(Outbox(rounds, n + 1), pool));
    OutboxGrows(rounds, n + 1, |rounds|);
    var now, all := Outbox(rounds, n + 1), Outbox(rounds, |rounds|);
    assert now == all[..|now|];
  }

  lemma StillPrefix(rounds: seq<Round>, pool: Option<PoolKey>, n: nat, sent: seq<Entry>)
    requires n <= |rounds| && sent <= Matching(Outbox(rounds, n), pool)
    ensures sent <= Matching(Outbox(rounds, |rounds|), pool)
  {
    MatchingGrows(rounds, pool, n, |rounds|);
    PrefixOf(sent, Matching(Outbox(rounds, n), pool), Matching(Outbox(rounds, |rounds|), pool));
  }

  /** What the fetches from the j-th to the n-th must have sent between them: all that the j-th found,
      or a full batch each. */
  ghost function Due(rounds: seq<Round>, pool: Option<PoolKey>, j: nat, n: nat, batch: nat): nat
    requires j < n <= |rounds|
  {
    Min(|Matching(Outbox(rounds, j + 1), pool)|, (n - j) * batch)
  }

  ghost predicate KeptUp(rounds: seq<Round>, pool: Option<PoolKey>, n: nat, batch: nat, sent: nat)
    requires n <= |rounds|
  {
    forall j: nat | j < n :: sent >= Due(rounds, pool, j, n, batch)
  }

  lemma OneMoreBatch(n: nat, j: nat, batch: nat)
    ensures (n + 1 - j) * batch == (n - j) * batch + batch
  {
  }

  lemma KeepsUp(rounds: seq<Round>, pool: Option<PoolKey>, n: nat, batch: nat, before: nat, after: nat)
    requires n < |rounds| && KeptUp(rounds, pool, n, batch, before)
    requires after >= Min(|Matching(Outbox(rounds, n + 1), pool)|, before + batch)
    ensures KeptUp(rounds, pool, n + 1, batch, after)
  {
    var next := n + 1;
    forall j: nat | j < next ensures after >= Due(rounds, pool, j, next, batch) {
      MatchingGrows(rounds, pool, j + 1, next);
      OneMoreBatch(n, j, batch);
      if j < n {
        assert before >= Due(rounds, pool, j, n, batch);
      }
    }
  }

  /** After a fetch: how many events are out, and whether the loop then waited for the poll ticker. */
  datatype Fetch = Fetch(sent: nat, waited: bool)

  function SentBy(fetches: seq<Fetch>): nat {
    if fetches == [] then 0 else fetches[|fetches| - 1].sent
  }

  datatype Ending = Cancelled | ListFailed | SendFailed

  type BatchSize = n: nat | 0 < n witness 1

  const DEFAULT_BATCH_SIZE: BatchSize := 100

  class EventsServer {
    const batchSize: BatchSize

    constructor (batch: int)
      ensures batchSize == if batch <= 0 then DEFAULT_BATCH_SIZE else batch
    {
      batchSize := if batch <= 0 then DEFAULT_BATCH_SIZE else batch;
    }

    /** A fetch that came back short found everything there was and the loop waited; after a full
        batch it fetched again at once. */
    ghost predicate Paced(rounds: seq<Round>, pool: Option<PoolKey>, before: nat, fetch: Fetch, n: nat)
      requires n < |rounds|
    {
      && fetch.sent == Min(|Matching(Outbox(rounds, n + 1), pool)|, before + batchSize)
      && (fetch.waited <==> fetch.sent < before + batchSize)
    }

    ghost predicate AllPaced(rounds: seq<Round>, pool: Option<PoolKey>, fetches: seq<Fetch>) {
      && |fetches| <= |rounds|
      && forall n | 0 <= n < |fetches| ::
           rounds[n].ok && Paced(rounds, pool, SentBy(fetches[..n]), fetches[n], n)
    }

    lemma OneMorePaced(rounds: seq<Round>, pool: Option<PoolKey>, fetches: seq<Fetch>, fetch: Fetch)
      requires AllPaced(rounds, pool, fetches) && |fetches| < |rounds| && rounds[|fetches|].ok
      requires Paced(rounds, pool, SentBy(fetches), fetch, |fetches|)
      ensures AllPaced(rounds, pool, fetches + [fetch])
    {
      var longer := fetches + [fetch];
      forall n | 0 <= n < |longer|
        ensures rounds[n].ok && Paced(rounds, pool, SentBy(longer[..n]), longer[n], n)
      {
        if n < |fetches| {
          assert longer[..n] == fetches[..n];
        } else {
          assert longer[..n] == fetches;
        }
      }
    }

    /** One pass of the loop: fetch a batch after the last id sent, and send it. */
    method Page(outbox: seq<Entry>, pool: Option<PoolKey>, sent: seq<Entry>, sends: nat)
      returns (now: seq<Entry>, full: bool, ok: bool)
      requires Increasing(outbox) && sent <= Matching(outbox, pool) && |sent| <= sends
      ensures sent <= now && SentInOrder(outbox, pool, now)
      ensures now <= Matching(outbox, pool) && |now| <= sends
      ensures ok ==>
                |now| == Min(|Matching(outbox, pool)|, |sent| + batchSize) && (full <==> |now| == |sent| + batchSize)
      ensures !ok ==> |now| == sends < |Matching(outbox, pool)|
    {
      hide Since, Increasing, SentInOrder;
      ghost var all := Matching(outbox, pool);
      Resumes(outbox, pool, |sent|);
      assert sent == all[..|sent|];
      var events := ListEventsSince(outbox, pool, LastId(sent), batchSize);
      now, full, ok := sent, |events| == batchSize, true;
      for k := 0 to |events|
        invariant now == all[..|sent| + k] && |now| <= sends
      {
        if |now| == sends {
          PrefixMeans(outbox, pool, now);
          return now, full, false;
        }
        assert events[k] == all[|sent| + k];
        now := now + [events[k]];
      }
      PrefixMeans(outbox, pool, now);
    }

    /** What was sent, entry by entry. */
    lemma SubscribedMeans(
      rounds: seq<Round>, pool: Option<PoolKey>, fetches: seq<Fetch>, sent: seq<Entry>, end: Ending)
      requires Increasing(Outbox(rounds, |rounds|)) && sent <= Matching(Outbox(rounds, |rounds|), pool)
      requires AllPaced(rounds, pool, fetches)
      requires end.Cancelled? ==> |fetches| == |rounds| && |sent| == SentBy(fetches)
      ensures SentInOrder(Outbox(rounds, |rounds|), pool, sent)
      ensures end.Cancelled? && fetches != [] && fetches[|fetches| - 1].waited ==>
                forall e | e in Outbox(rounds, |rounds|) && (pool.None? || e.event.pool == pool.value) :: e in sent
    {
      PrefixMeans(Outbox(rounds, |rounds|), pool, sent);
      LastWait(rounds, pool, fetches);
    }

    lemma LastWait(rounds: seq<Round>, pool: Option<PoolKey>, fetches: seq<Fetch>)
      requires AllPaced(rounds, pool, fetches)
      ensures fetches != [] && fetches[|fetches| - 1].waited ==>
                SentBy(fetches) == |Matching(Outbox(rounds, |fetches|), pool)|
    {
      if fetches != [] {
        var n := |fetches| - 1;
        assert Paced(rounds, pool, SentBy(fetches[..n]), fetches[n], n);
      }
    }

    /** The loop: one round per fetch, the stream's context ending after the last, and a Send that
        fails once sends events are out. */
    method Stream(pool: Option<PoolKey>, rounds: seq<Round>, sends: nat)
      returns (sent: seq<Entry>, fetches: seq<Fetch>, end: Ending)
      requires Increasing(Outbox(rounds, |rounds|))
      ensures sent <= Matching(Outbox(rounds, |rounds|), pool)
      ensures AllPaced(rounds, pool, fetches)
      ensures !end.SendFailed? ==> |sent| == SentBy(fetches)
      ensures end.Cancelled? ==> |fetches| == |rounds|
      ensures end.ListFailed? ==> |fetches| < |rounds| && !rounds[|fetches|].ok
      ensures end.SendFailed? ==>
                |fetches| < |rounds| && |sent| == sends < |Matching(Outbox(rounds, |fetches| + 1), pool)|
    {
      sent, fetches, end := [], [], Cancelled;
      var outbox: seq<Entry> := [];
      for n := 0 to |rounds|
        invariant outbox == Outbox(rounds, n) && end.Cancelled? && |fetches| == n
        invariant sent <= Matching(outbox, pool) && |sent| == SentBy(fetches) <= sends
        invariant AllPaced(rounds, pool, fetches)
      {
        StillPrefix(rounds, pool, n, sent);
        NextRound(rounds, pool, n, sent);
        outbox := outbox + rounds[n].arrived;
        if !rounds[n].ok {
          end := ListFailed;
          return;
        }
        var now, full, ok := Page(outbox, pool, sent, sends);
        StillPrefix(rounds, pool, n + 1, now);
        if !ok {
          sent, end := now, SendFailed;
          return;
        }
        OneMorePaced(rounds, pool, fetches, Fetch(|now|, !full));
        sent, fetches := now, fetches + [Fetch(|now|, !full)];
      }
    }

    /** Subscribe: what is sent is of the asked pool, in id order, with nothing of the pool left out;
        whenever the loop waits, everything of the pool is out. */
    method Subscribe(pool: Option<PoolKey>, rounds: seq<Round>, sends: nat)
      returns (sent: seq<Entry>, fetches: seq<Fetch>, end: Ending)
      requires Increasing(Outbox(rounds, |rounds|))
      ensures forall n | 0 <= n < |sent| ::
                sent[n] in Outbox(rounds, |rounds|) && (pool.None? || sent[n].event.pool == pool.value)
      ensures forall m, n | 0 <= m < n < |sent| :: sent[m].id < sent[n].id
      ensures forall e | e in Outbox(rounds, |rounds|) && (pool.None? || e.event.pool == pool.value) ::
                e in sent || sent == [] || e.id > sent[|sent| - 1].id
      ensures end.Cancelled? && fetches != [] && fetches[|fetches| - 1].waited ==>
                forall e | e in Outbox(rounds, |rounds|) && (pool.None? || e.event.pool == pool.value) :: e in sent
      ensures sent <= Matching(Outbox(rounds, |rounds|), pool)
      ensures AllPaced(rounds, pool, fetches)
      ensures !end.SendFailed? ==> |sent| == SentBy(fetches)
      ensures end.Cancelled? ==> |fetches| == |rounds|
      ensures end.ListFailed? ==> |fetches| < |rounds| && !rounds[|fetches|].ok
      ensures end.SendFailed? ==>
                |fetches| < |rounds| && |sent| == sends < |Matching(Outbox(rounds, |fetches| + 1), pool)|
    {
      sent, fetches, end := Stream(pool, rounds, sends);
      SubscribedMeans(rounds, pool, fetches, sent, end);
    }
  }

  lemma {:induction false} PacedKeepsUp(s: EventsServer, rounds: seq<Round>, pool: Option<PoolKey>, fetches: seq<Fetch>)
    requires s.AllPaced(rounds, pool, fetches)
    ensures KeptUp(rounds, pool, |fetches|, s.batchSize, SentBy(fetches))
    decreases |fetches|
  {
    if fetches != [] {
      var n := |fetches| - 1;
      var before := fetches[..n];
      assert forall m | 0 <= m < n :: before[..m] == fetches[..m];
      PacedKeepsUp(s, rounds, pool, before);
      assert s.Paced(rounds, pool, SentBy(before), fetches[n], n);
      KeepsUp(rounds, pool, n, s.batchSize, SentBy(before), SentBy(fetches));
    }
  }

  /** Draining ends: once nothing more arrives, as many fetches as it takes at a batch each have sent
      everything, so paging sends what the unpaged subscription would. */
  lemma DrainingEnds(
    s: EventsServer, rounds: seq<Round>, pool: Option<PoolKey>, fetches: seq<Fetch>, sent: seq<Entry>, j: nat)
    requires s.AllPaced(rounds, pool, fetches) && |fetches| == |rounds| && |sent| == SentBy(fetches)
    requires sent <= Matching(Outbox(rounds, |rounds|), pool)
    requires j < |rounds| && forall n | j < n < |rounds| :: rounds[n].arrived == []
    requires (|rounds| - j) * s.batchSize >= |Matching(Outbox(rounds, |rounds|), pool)|
    ensures sent == Matching(Outbox(rounds, |rounds|), pool)
  {
    PacedKeepsUp(s, rounds, pool, fetches);
    Quiet(rounds, j + 1, |rounds|);
    assert |sent| >= Due(rounds, pool, j, |rounds|, s.batchSize);
  }

  lemma {:induction false} Quiet(rounds: seq<Round>, m: nat, n: nat)
    requires m <= n <= |rounds| && forall k | m <= k < n :: rounds[k].arrived == []
    ensures Outbox(rounds, m) == Outbox(rounds, n)
    decreases n
  {
    if m < n {
      Quiet(rounds, m, n - 1);
    }
  }

  /** A wait means the subscriber has everything the fetch before it found. */
  lemma WaitMeansCaughtUp(
    s: EventsServer, rounds: seq<Round>, pool: Option<PoolKey>, before: nat, fetch: Fetch, n: nat, sent: seq<Entry>)
    requires n < |rounds| && s.Paced(rounds, pool, before, fetch, n) && fetch.waited
    requires sent <= Matching(Outbox(rounds, |rounds|), pool) && |sent| >= fetch.sent
    ensures Matching(Outbox(rounds, n + 1), pool) <= sent
  {
    MatchingGrows(rounds, pool, n + 1, |rounds|);
  }
}
