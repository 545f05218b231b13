/**
 The DNS propagation poll loop: up to `MaxRetries` calls of `dns.resolveTxt`
 on the challenge host, each followed, when it does not find the expected
 value, by a fixed sleep. Resolver errors are absorbed as unsuccessful attempts.
 */
module Propagation {
  import opened AcmeTypes

  /** The literal bound `maxRetries` of the loop. */
  const MaxRetries: nat := 30

  /** What one `dns.resolveTxt` call yields: the TXT records at the host, each
      an array of character-string chunks, or a rejection. */
  datatype DnsOutcome = DnsError(message: string) | Records(records: seq<seq<string>>)

  /** The per-attempt match: some record has a chunk equal to the value
      (`records.some(record => record.includes(value))`). */
  predicate Matches(outcome: DnsOutcome, value: string)
  {
    outcome.Records? &&
    exists i, j :: 0 <= i < |outcome.records| && 0 <= j < |outcome.records[i]| &&
      outcome.records[i][j] == value
  }

  /** `record.includes(value)`: a linear scan with element equality. */
  method Includes(record: seq<string>, value: string) returns (found: bool)
    ensures found <==> value in record
  {
    found := false;
    var j := 0;
    while j < |record|
      invariant 0 <= j <= |record|
      invariant !found
      invariant forall m :: 0 <= m < j ==> record[m] != value
    {
      if record[j] == value {
        found := true;
        return;
      }
      j := j + 1;
    }
  }

  /** One attempt's verdict: a rejected lookup never matches; otherwise
      `records.some(record => record.includes(value))`. */
  method AttemptMatches(outcome: DnsOutcome, value: string) returns (ok: bool)
    ensures ok <==> Matches(outcome, value)
  {
    ok := false;
    if outcome.DnsError? {
      return;
    }
    var records := outcome.records;
    var i := 0;
    while i < |records|
      invariant 0 <= i <= |records|
      invariant forall m :: 0 <= m < i ==> value !in records[m]
    {
      var hit := Includes(records[i], value);
      if hit {
        ghost var j :| 0 <= j < |records[i]| && records[i][j] == value;
        ok := true;
        return;
      }
      i := i + 1;
    }
  }

  /** Record-level view of the match: the value is a chunk of some record. */
  lemma MatchesIffSomeRecordIncludes(records: seq<seq<string>>, value: string)
    ensures Matches(Records(records), value) <==> exists r :: r in records && value in r
  {
    if exists r :: r in records && value in r {
      var r :| r in records && value in r;
      var i :| 0 <= i < |records| && records[i] == r;
      var j :| 0 <= j < |r| && r[j] == value;
      assert records[i][j] == value;
    }
    if Matches(Records(records), value) {
      var i, j :| 0 <= i < |records| && 0 <= j < |records[i]| && records[i][j] == value;
      assert records[i] in records && value in records[i];
    }
  }

  /** Unrelated records never stop a match: any answer that still contains
      every record of a matching answer matches too, whatever else it holds
      and in whatever order. */
  lemma ExtraRecordsKeepMatch(records: seq<seq<string>>, more: seq<seq<string>>, value: string)
    requires Matches(Records(records), value)
    requires forall r :: r in records ==> r in more
    ensures Matches(Records(more), value)
  {
    MatchesIffSomeRecordIncludes(records, value);
    MatchesIffSomeRecordIncludes(more, value);
  }

  /** Matching is chunk equality, not substring search: a chunk that merely
      contains the value, or the value split across two chunks, does not match. */
  lemma MatchIsChunkEquality()
    ensures !Matches(Records([["xabc123"]]), "abc123")
    ensures !Matches(Records([["abc", "123"]]), "abc123")
    ensures Matches(Records([["other"], ["v=1", "abc123"]]), "abc123")
  {
    var rs := [["v=1", "abc123"]];
    assert [["other"], ["v=1", "abc123"]][1][1] == "abc123";
    assert "abc" != "abc123" by { assert |"abc"| != |"abc123"|; }
    assert "123" != "abc123" by { assert |"123"| != |"abc123"|; }
    assert "xabc123" != "abc123" by { assert |"xabc123"| != |"abc123"|; }
  }

  /** `count` failed attempts: each a lookup followed by a sleep. */
  function Rounds(host: string, count: nat): (events: seq<Event>)
  {
    if count == 0 then [] else Rounds(host, count - 1) + [ResolveTxt(host), Sleep]
  }

  /** Round `m` is the lookup at index `2m` and the sleep right after it. */
  lemma {:induction false} RoundsShape(host: string, count: nat)
    ensures |Rounds(host, count)| == 2 * count
    ensures forall m :: 0 <= m < count ==>
      Rounds(host, count)[2 * m] == ResolveTxt(host) && Rounds(host, count)[2 * m + 1] == Sleep
  {
    if count > 0 {
      RoundsShape(host, count - 1);
      var prev := Rounds(host, count - 1);
      assert forall m :: 0 <= m < count - 1 ==> Rounds(host, count)[2 * m] == prev[2 * m];
      assert forall m :: 0 <= m < count - 1 ==> Rounds(host, count)[2 * m + 1] == prev[2 * m + 1];
    }
  }

  /** `count` rounds make exactly `count` lookups of the host and `count`
      sleeps, and nothing else. */
  lemma {:induction false} RoundsCounts(host: string, count: nat)
    ensures multiset(Rounds(host, count))[ResolveTxt(host)] == count
    ensures multiset(Rounds(host, count))[Sleep] == count
    ensures forall e :: e in Rounds(host, count) ==> e == ResolveTxt(host) || e == Sleep
  {
    if count > 0 {
      RoundsCounts(host, count - 1);
      var prev := Rounds(host, count - 1);
      assert multiset(Rounds(host, count)) == multiset(prev) + multiset{ResolveTxt(host), Sleep};
    }
  }

  /** Where the loop ends, and the calls it made on the way. */
  datatype Poll = Poll(verified: bool, events: seq<Event>)

  /** Reference definition of the loop from attempt `retries` on. */
  function PollLoop(host: string, value: string, resolve: nat -> DnsOutcome, retries: nat): Poll
    decreases MaxRetries - retries
  {
    if retries >= MaxRetries then Poll(false, [])
    else if Matches(resolve(retries), value) then Poll(true, [ResolveTxt(host)])
    else
      var rest := PollLoop(host, value, resolve, retries + 1);
      Poll(rest.verified, [ResolveTxt(host), Sleep] + rest.events)
  }

  /** One of the first `MaxRetries` answers contains the expected value. */
  predicate Propagated(resolve: nat -> DnsOutcome, value: string)
  {
    exists k :: 0 <= k < MaxRetries && Matches(resolve(k), value)
  }

  /** Attempt `k` is the first of the `MaxRetries` attempts whose answer matches. */
  predicate FirstMatchAt(resolve: nat -> DnsOutcome, value: string, k: nat)
  {
    k < MaxRetries && Matches(resolve(k), value) &&
    forall j :: 0 <= j < k ==> !Matches(resolve(j), value)
  }

  /** After `count` unsuccessful attempts the loop has emitted `Rounds(count)`
      and its remaining course is that of the loop started at `count`. */
  lemma {:induction false} PollLoopUnroll(host: string, value: string, resolve: nat -> DnsOutcome, count: nat)
    requires count <= MaxRetries
    requires forall j :: 0 <= j < count ==> !Matches(resolve(j), value)
    ensures PollLoop(host, value, resolve, 0) ==
      Poll(PollLoop(host, value, resolve, count).verified,
           Rounds(host, count) + PollLoop(host, value, resolve, count).events)
  {
    if count > 0 {
      PollLoopUnroll(host, value, resolve, count - 1);
      var rest := PollLoop(host, value, resolve, count);
      assert PollLoop(host, value, resolve, count - 1) ==
        Poll(rest.verified, [ResolveTxt(host), Sleep] + rest.events);
      RoundsThen(host, count, rest.events);
    }
  }

  /** One more round, followed by `rest`, is the longer prefix followed by `rest`. */
  lemma RoundsThen(host: string, count: nat, rest: seq<Event>)
    requires count > 0
    ensures Rounds(host, count - 1) + ([ResolveTxt(host), Sleep] + rest) == Rounds(host, count) + rest
  {
    assert Rounds(host, count) == Rounds(host, count - 1) + [ResolveTxt(host), Sleep];
  }

  /** The loop verifies iff one of the first `MaxRetries` answers matches; on
      success it stops right after the first matching lookup, with no sleep
      after it; on failure it made exactly `MaxRetries` lookups and sleeps. */
  lemma PollLoopOutcome(host: string, value: string, resolve: nat -> DnsOutcome)
    ensures PollLoop(host, value, resolve, 0).verified <==>
      Propagated(resolve, value)
    ensures !PollLoop(host, value, resolve, 0).verified ==>
      PollLoop(host, value, resolve, 0).events == Rounds(host, MaxRetries)
    ensures forall k :: FirstMatchAt(resolve, value, k) ==>
      PollLoop(host, value, resolve, 0).events == Rounds(host, k) + [ResolveTxt(host)]
  {
    if Propagated(resolve, value) {
      var k := LeastMatch(resolve, value);
      PollLoopUnroll(host, value, resolve, k);
      assert Rounds(host, k) + PollLoop(host, value, resolve, k).events ==
        Rounds(host, k) + [ResolveTxt(host)];
      forall k' | FirstMatchAt(resolve, value, k')
        ensures PollLoop(host, value, resolve, 0).events == Rounds(host, k') + [ResolveTxt(host)]
      {
        assert k' == k;
      }
    } else {
      PollLoopUnroll(host, value, resolve, MaxRetries);
      assert Rounds(host, MaxRetries) + [] == Rounds(host, MaxRetries);
    }
  }

  /** The least matching attempt, when one of the first `MaxRetries` matches. */
  lemma LeastMatch(resolve: nat -> DnsOutcome, value: string) returns (k: nat)
    requires Propagated(resolve, value)
    ensures FirstMatchAt(resolve, value, k)
  {
    k := 0;
    while !Matches(resolve(k), value)
      invariant k < MaxRetries
      invariant forall j :: 0 <= j < k ==> !Matches(resolve(j), value)
      decreases MaxRetries - k
    {
      k := k + 1;
    }
  }

  /** The loop always starts with a lookup; it ends with the matching lookup
      when it verifies and with a sleep when it gives up. */
  lemma PollLoopEnds(host: string, value: string, resolve: nat -> DnsOutcome)
    ensures var p := PollLoop(host, value, resolve, 0);
      && |p.events| > 0 && p.events[0] == ResolveTxt(host)
      && p.events[|p.events| - 1] == (if p.verified then ResolveTxt(host) else Sleep)
  {
    PollLoopOutcome(host, value, resolve);
    if PollLoop(host, value, resolve, 0).verified {
      var k := LeastMatch(resolve, value);
    }
  }

  /** Bounds of the loop, by counting calls: never more than `MaxRetries`
      lookups, one sleep after every unsuccessful lookup and none after a
      successful one. */
  lemma PollLoopCounts(host: string, value: string, resolve: nat -> DnsOutcome)
    ensures 1 <= multiset(PollLoop(host, value, resolve, 0).events)[ResolveTxt(host)] <= MaxRetries
    ensures PollLoop(host, value, resolve, 0).verified ==>
      multiset(PollLoop(host, value, resolve, 0).events)[Sleep] + 1 ==
      multiset(PollLoop(host, value, resolve, 0).events)[ResolveTxt(host)]
    ensures !PollLoop(host, value, resolve, 0).verified ==>
      multiset(PollLoop(host, value, resolve, 0).events)[Sleep] == MaxRetries &&
      multiset(PollLoop(host, value, resolve, 0).events)[ResolveTxt(host)] == MaxRetries
  {
    PollLoopOutcome(host, value, resolve);
    var p := PollLoop(host, value, resolve, 0);
    if p.verified {
      var k := LeastMatch(resolve, value);
      RoundsCounts(host, k);
      var rounds := multiset(Rounds(host, k));
      assert multiset(p.events) == rounds + multiset{ResolveTxt(host)};
      assert multiset{ResolveTxt(host)}[Sleep] == 0;
      assert (rounds + multiset{ResolveTxt(host)})[Sleep] == rounds[Sleep];
    } else {
      RoundsCounts(host, MaxRetries);
    }
  }

  /** The loop makes no call but lookups of the host and sleeps. */
  lemma PollLoopCalls(host: string, value: string, resolve: nat -> DnsOutcome)
    ensures forall e :: e in PollLoop(host, value, resolve, 0).events ==> e == ResolveTxt(host) || e == Sleep
  {
    PollLoopOutcome(host, value, resolve);
    if PollLoop(host, value, resolve, 0).verified {
      var k := LeastMatch(resolve, value);
      RoundsCounts(host, k);
    } else {
      RoundsCounts(host, MaxRetries);
    }
  }

  /** A resolver error is absorbed: when attempt `k` is reached and rejects,
      the loop still sleeps after it and, below the bound, makes attempt `k + 1`
      on the same host. */
  lemma ResolverErrorAbsorbed(host: string, value: string, resolve: nat -> DnsOutcome, k: nat)
    requires k < MaxRetries
    requires resolve(k).DnsError?
    requires forall j :: 0 <= j < k ==> !Matches(resolve(j), value)
    ensures var events := PollLoop(host, value, resolve, 0).events;
      && |events| >= 2 * k + 2
      && events[2 * k] == ResolveTxt(host)
      && events[2 * k + 1] == Sleep
      && (k + 1 < MaxRetries ==> |events| >= 2 * k + 3 && events[2 * k + 2] == ResolveTxt(host))
  {
    PollLoopUnroll(host, value, resolve, k + 1);
    RoundsShape(host, k);
    var rest := PollLoop(host, value, resolve, k + 1);
    RoundsThen(host, k + 1, rest.events);
    var round := [ResolveTxt(host), Sleep] + rest.events;
    assert (Rounds(host, k) + round)[2 * k] == round[0];
    assert (Rounds(host, k) + round)[2 * k + 1] == round[1];
    if k + 1 < MaxRetries {
      assert rest.events[0] == ResolveTxt(host);
      assert (Rounds(host, k) + round)[2 * k + 2] == round[2];
    }
  }

  /** The loop of index.js: resolve, test the answer, break on a match,
      otherwise (also after a resolver error) sleep and count the attempt. */
  method PollPropagation(host: string, value: string, resolve: nat -> DnsOutcome)
    returns (verified: bool, events: seq<Event>)
    ensures Poll(verified, events) == PollLoop(host, value, resolve, 0)
    ensures verified <==> Propagated(resolve, value)
    ensures verified ==>
      exists k :: FirstMatchAt(resolve, value, k) && events == Rounds(host, k) + [ResolveTxt(host)]
    ensures !verified ==> events == Rounds(host, MaxRetries)
  {
    var retries := 0;
    verified := false;
    events := [];
    while retries < MaxRetries
      invariant retries <= MaxRetries
      invariant !verified
      invariant events == Rounds(host, retries)
      invariant forall j :: 0 <= j < retries ==> !Matches(resolve(j), value)
    {
      var outcome := resolve(retries);
      events := events + [ResolveTxt(host)];
      var found := AttemptMatches(outcome, value);
      if found {
        verified := true;
        PollLoopUnroll(host, value, resolve, retries);
        assert FirstMatchAt(resolve, value, retries);
        return;
      }
      events := events + [Sleep];
      retries := retries + 1;
    }
    PollLoopUnroll(host, value, resolve, MaxRetries);
    assert events + [] == events;
  }
}
