/**
 What every run guarantees, whatever the collaborators answer: the email
 guard comes first, the challenge record is fixed, the steps move strictly
 forward, a failure ends the run, and the CA is only asked to validate once
 the record has been seen in DNS.
 */
module RunProperties {
  import opened AcmeTypes
  import opened Propagation
  import opened Orchestrator

  /** Two forward traces joined where the second starts at a later step
      (or both are polling) form a forward trace. */
  lemma ForwardConcat(a: seq<Event>, b: seq<Event>)
    requires Forward(a) && Forward(b)
    requires |a| > 0 && |b| > 0 ==> Advances(a[|a| - 1], b[0])
    ensures Forward(a + b)
  {
    forall i: nat | i + 1 < |a + b|
      ensures AdvancesAt(a + b, i)
    {
      if i + 1 < |a| {
        assert AdvancesAt(a, i);
      } else if i >= |a| {
        assert AdvancesAt(b, i - |a|);
      }
    }
  }

  /** A run of lookups and sleeps is forward. */
  lemma PollEventsForward(p: seq<Event>, host: string)
    requires forall e :: e in p ==> e == ResolveTxt(host) || e == Sleep
    ensures Forward(p)
  {
    forall i: nat | i + 1 < |p|
      ensures AdvancesAt(p, i)
    {
      assert p[i] in p && p[i + 1] in p;
    }
  }

  /** A falsy `EMAIL` (unset or empty) stops the run right after the account
      key is generated: no account, order, DNS or finalize call is made. */
  lemma EmailGuardFailsFirst(cfg: Config, gw: Gateway, resolve: nat -> DnsOutcome)
    requires !EmailProvided(cfg.email)
    ensures Run(cfg, gw, resolve).trace == [GenerateAccountKey]
    ensures Run(cfg, gw, resolve).result.Failed?
    ensures gw.accountKey.Ok? ==> Run(cfg, gw, resolve).result == Failed(Thrown(NoEmailMessage))
  {
  }

  /** Set-up stops exactly at its first failing guard or call, and that
      failure reaches the catch. */
  lemma SetUpStopsAtFirstFailure(cfg: Config, gw: Gateway)
    ensures SetUp(cfg, gw).Halted? <==> SetUpFailure(cfg, gw).Some?
    ensures SetUp(cfg, gw).Halted? ==> SetUp(cfg, gw).error == SetUpFailure(cfg, gw).value.error
  {
  }

  /** A set-up that stops makes the failing call last; a failing guard or
      selection, which makes no call, comes right after the last call made. */
  lemma SetUpStopsAfterFailingCall(cfg: Config, gw: Gateway)
    requires SetUpFailure(cfg, gw).Some?
    ensures var t := SetUp(cfg, gw).trace;
      var h := SetUpFailure(cfg, gw).value;
      var last := StepOf(t[|t| - 1]);
      if MakesCall(h.step) then last == h.step else Rank(last) + 1 == Rank(h.step)
  {
    if gw.accountKey.Err? || !EmailProvided(cfg.email) {
      assert SetUp(cfg, gw).trace == [GenerateAccountKey];
    } else if gw.account.Err? || gw.order.Err? || gw.authorizations.Err? {
    } else if |gw.authorizations.value| == 0 {
      assert SetUp(cfg, gw).trace[3] == GetAuthorizations(gw.order.value);
    }
  }

  /** Validation stops at the first of its calls that throws, with that call last. */
  lemma ValidateStopsAtFirstFailure(gw: Gateway, authorization: Authorization, challenge: Challenge)
    ensures Validate(gw, authorization, challenge).failure.None? <==> ValidationFailure(gw).None?
    ensures ValidationFailure(gw).Some? ==>
      var v := Validate(gw, authorization, challenge);
      var h := ValidationFailure(gw).value;
      v.failure == Some(h.error) && StepOf(v.trace[|v.trace| - 1]) == h.step
  {
  }

  /** Finalization issues the certificate unless one of its calls throws, and
      then stops at the first such call, with that call last. */
  lemma FinalizeStopsAtFirstFailure(domain: string, gw: Gateway, order: Order)
    ensures Finalize(domain, gw, order).result.Issued? <==> FinalizationFailure(gw).None?
    ensures FinalizationFailure(gw).Some? ==>
      var f := Finalize(domain, gw, order);
      var h := FinalizationFailure(gw).value;
      f.result == Failed(h.error) && StepOf(f.trace[|f.trace| - 1]) == h.step
  {
  }

  /** When none of the first `MaxRetries` lookups finds the key authorization,
      the run throws right after the poll: the record was shown, every
      lookup was followed by a sleep, and the CA was never asked to validate. */
  lemma ProceedWhenPollFails(cfg: Config, gw: Gateway, resolve: nat -> DnsOutcome, s: Setup)
    requires s.Ready? && !Propagated(resolve, s.keyAuthorization)
    ensures var host := RecordHost(cfg.domain);
      Proceed(cfg, gw, resolve, s) ==
        Stop(s.trace + [Prompt(host, "TXT", s.keyAuthorization)] + Rounds(host, MaxRetries),
             Thrown(PropagationFailedMessage))
  {
    PollLoopOutcome(RecordHost(cfg.domain), s.keyAuthorization, resolve);
  }

  /** When some lookup finds the key authorization, the poll ends with the
      first such lookup and the run goes on to validation and finalization. */
  lemma ProceedWhenPollSucceeds(cfg: Config, gw: Gateway, resolve: nat -> DnsOutcome, s: Setup)
    returns (k: nat)
    requires s.Ready? && Propagated(resolve, s.keyAuthorization)
    ensures FirstMatchAt(resolve, s.keyAuthorization, k)
    ensures var host := RecordHost(cfg.domain);
      var polled := s.trace + [Prompt(host, "TXT", s.keyAuthorization)] + Rounds(host, k) + [ResolveTxt(host)];
      var v := Validate(gw, s.authorization, s.challenge);
      var f := Finalize(cfg.domain, gw, s.order);
      Proceed(cfg, gw, resolve, s) ==
        if v.failure.Some? then Stop(polled + v.trace, v.failure.value)
        else RunOutcome(polled + v.trace + f.trace, f.result)
  {
    var host := RecordHost(cfg.domain);
    PollLoopOutcome(host, s.keyAuthorization, resolve);
    k := LeastMatch(resolve, s.keyAuthorization);
    var polled := s.trace + [Prompt(host, "TXT", s.keyAuthorization)] + Rounds(host, k) + [ResolveTxt(host)];
    assert s.trace + [Prompt(host, "TXT", s.keyAuthorization)] + PollLoop(host, s.keyAuthorization, resolve, 0).events
      == polled;
  }

  /** A poll that never sees the record ends the run with its last sleep. */
  lemma ProceedStopsAtPoll(cfg: Config, gw: Gateway, resolve: nat -> DnsOutcome, s: Setup)
    requires s.Ready? && !Propagated(resolve, s.keyAuthorization)
    ensures var p := Proceed(cfg, gw, resolve, s);
      && |p.trace| > 0 && p.result == Failed(Thrown(PropagationFailedMessage))
      && StepOf(p.trace[|p.trace| - 1]) == PropagationPoll
  {
    var host := RecordHost(cfg.domain);
    var poll := PollLoop(host, s.keyAuthorization, resolve, 0);
    PollLoopOutcome(host, s.keyAuthorization, resolve);
    PollLoopEnds(host, s.keyAuthorization, resolve);
    var t := s.trace + [Prompt(host, "TXT", s.keyAuthorization)] + poll.events;
    assert t[|t| - 1] == Sleep;
  }

  /** After a poll that sees the record the run stops at the first failing
      call of the validation or the finalization, and issues when none fails. */
  lemma ProceedStopsAfterPoll(cfg: Config, gw: Gateway, resolve: nat -> DnsOutcome, s: Setup)
    requires s.Ready? && Propagated(resolve, s.keyAuthorization)
    ensures var p := Proceed(cfg, gw, resolve, s);
      var v := ValidationFailure(gw);
      var f := FinalizationFailure(gw);
      && |p.trace| > 0
      && (p.result.Issued? <==> v.None? && f.None?)
      && (v.Some? ==> p.result == Failed(v.value.error) && StepOf(p.trace[|p.trace| - 1]) == v.value.step)
      && (v.None? && f.Some? ==>
            p.result == Failed(f.value.error) && StepOf(p.trace[|p.trace| - 1]) == f.value.step)
  {
    var host := RecordHost(cfg.domain);
    var k := ProceedWhenPollSucceeds(cfg, gw, resolve, s);
    var polled := s.trace + [Prompt(host, "TXT", s.keyAuthorization)] + Rounds(host, k) + [ResolveTxt(host)];
    var v := Validate(gw, s.authorization, s.challenge);
    ValidateStopsAtFirstFailure(gw, s.authorization, s.challenge);
    assert (polled + v.trace)[|polled + v.trace| - 1] == v.trace[|v.trace| - 1];
    if v.failure.None? {
      var f := Finalize(cfg.domain, gw, s.order);
      FinalizeStopsAtFirstFailure(cfg.domain, gw, s.order);
      assert (polled + v.trace + f.trace)[|polled + v.trace + f.trace| - 1] == f.trace[|f.trace| - 1];
    }
  }

  /** After a successful set-up the run stops at the first failure of the
      poll, the validation or the finalization, with the failing call last. */
  lemma ProceedStopsAtFirstFailure(cfg: Config, gw: Gateway, resolve: nat -> DnsOutcome, s: Setup)
    requires s.Ready? && SetUpFailure(cfg, gw).None? && gw.keyAuthorization == Ok(s.keyAuthorization)
    ensures |Proceed(cfg, gw, resolve, s).trace| > 0
    ensures Proceed(cfg, gw, resolve, s).result.Issued? <==> FirstFailure(cfg, gw, resolve).None?
    ensures FirstFailure(cfg, gw, resolve).Some? ==>
      var p := Proceed(cfg, gw, resolve, s);
      var h := FirstFailure(cfg, gw, resolve).value;
      p.result == Failed(h.error) && StepOf(p.trace[|p.trace| - 1]) == h.step
  {
    if !Propagated(resolve, s.keyAuthorization) {
      ProceedStopsAtPoll(cfg, gw, resolve, s);
    } else {
      ProceedStopsAfterPoll(cfg, gw, resolve, s);
    }
  }

  /** A run stops at the first failing step of the reference view, and only
      there: it issues the certificate exactly when nothing fails; otherwise
      the failure reaches the catch, the failing call is the last call made,
      and no call of a later step was made. */
  lemma RunStopsAtFirstFailure(cfg: Config, gw: Gateway, resolve: nat -> DnsOutcome)
    ensures |Run(cfg, gw, resolve).trace| > 0
    ensures Run(cfg, gw, resolve).result.Issued? <==> FirstFailure(cfg, gw, resolve).None?
    ensures FirstFailure(cfg, gw, resolve).Some? ==>
      var t := Run(cfg, gw, resolve).trace;
      var h := FirstFailure(cfg, gw, resolve).value;
      var last := StepOf(t[|t| - 1]);
      && Run(cfg, gw, resolve).result == Failed(h.error)
      && (if MakesCall(h.step) then last == h.step else Rank(last) + 1 == Rank(h.step))
      && forall e :: e in t ==> Rank(StepOf(e)) <= Rank(h.step)
  {
    var s := SetUp(cfg, gw);
    SetUpStopsAtFirstFailure(cfg, gw);
    if s.Halted? {
      SetUpStopsAfterFailingCall(cfg, gw);
    }
    if s.Ready? {
      ProceedStopsAtFirstFailure(cfg, gw, resolve, s);
      assert Run(cfg, gw, resolve) == Proceed(cfg, gw, resolve, s);
    } else {
      assert Run(cfg, gw, resolve) == Stop(s.trace, s.error);
    }
    var t := Run(cfg, gw, resolve).trace;
    RunIsForward(cfg, gw, resolve);
    ForwardBounds(t);
  }

  /** At most one step is the least failing one. */
  lemma LeastFailingUnique(cfg: Config, gw: Gateway, resolve: nat -> DnsOutcome, a: Step, b: Step)
    requires LeastFailing(cfg, gw, resolve, a) && LeastFailing(cfg, gw, resolve, b)
    ensures a == b
  {
    RankIsOneToOne(a, b);
  }

  /** A run with a failing step has a least failing one: the search climbs
      the ranks until a step fails. */
  lemma LeastFailingExists(cfg: Config, gw: Gateway, resolve: nat -> DnsOutcome, s: Step)
    returns (h: Step)
    requires StepFails(cfg, gw, resolve, s)
    ensures LeastFailing(cfg, gw, resolve, h) && Rank(h) <= Rank(s)
  {
    RankIsOneToOne(s, s);
    var r := 0;
    while !StepFails(cfg, gw, resolve, StepAt(r))
      invariant r <= Rank(s)
      invariant forall t :: Rank(t) < r ==> !StepFails(cfg, gw, resolve, t)
      decreases Rank(s) - r
    {
      r := r + 1;
    }
    h := StepAt(r);
  }

  /** The chain of checks in program order stops exactly at the least
      failing step and reports that step's error; it lets the run through
      exactly when no step fails. */
  lemma FirstFailureIsLeastFailingStep(cfg: Config, gw: Gateway, resolve: nat -> DnsOutcome)
    ensures FirstFailure(cfg, gw, resolve).None? <==> forall s :: !StepFails(cfg, gw, resolve, s)
    ensures FirstFailure(cfg, gw, resolve).Some? ==>
      var h := FirstFailure(cfg, gw, resolve).value;
      LeastFailing(cfg, gw, resolve, h.step) && h.error == StepError(cfg, gw, resolve, h.step)
  {
    var f := FirstFailure(cfg, gw, resolve);
    if f.None? {
      forall s ensures !StepFails(cfg, gw, resolve, s) {
      }
    } else {
      var h := f.value;
      assert StepFails(cfg, gw, resolve, h.step) && h.error == StepError(cfg, gw, resolve, h.step);
      forall s | Rank(s) < Rank(h.step) ensures !StepFails(cfg, gw, resolve, s) {
      }
    }
  }

  /** Set-up (lines 17-39) halts exactly when one of its own steps fails,
      and with the error of the least failing step. */
  lemma SetUpHaltsAtLeastFailingStep(cfg: Config, gw: Gateway, resolve: nat -> DnsOutcome)
    ensures SetUp(cfg, gw).Halted? <==>
      exists s :: Rank(s) <= Rank(KeyAuthorizationDerivation) && StepFails(cfg, gw, resolve, s)
    ensures forall h :: LeastFailing(cfg, gw, resolve, h) && Rank(h) <= Rank(KeyAuthorizationDerivation) ==>
      SetUp(cfg, gw).Halted? && SetUp(cfg, gw).error == StepError(cfg, gw, resolve, h)
  {
    SetUpStopsAtFirstFailure(cfg, gw);
    FirstFailureIsLeastFailingStep(cfg, gw, resolve);
    var f := FirstFailure(cfg, gw, resolve);
    forall h | LeastFailing(cfg, gw, resolve, h) && Rank(h) <= Rank(KeyAuthorizationDerivation)
      ensures SetUp(cfg, gw).Halted? && SetUp(cfg, gw).error == StepError(cfg, gw, resolve, h)
    {
      LeastFailingUnique(cfg, gw, resolve, h, f.value.step);
    }
    if s :| Rank(s) <= Rank(KeyAuthorizationDerivation) && StepFails(cfg, gw, resolve, s) {
      var h := LeastFailingExists(cfg, gw, resolve, s);
      LeastFailingUnique(cfg, gw, resolve, h, f.value.step);
    }
  }

  /** The whole run, stated on the steps alone: it issues the certificate
      exactly when no step fails; otherwise it ends with the error of the
      least failing step, its trace ends at that step (or, for the email
      guard and the challenge selection of an empty authorization list,
      which make no call, just before it) and holds nothing of later steps. */
  lemma RunStopsAtLeastFailingStep(cfg: Config, gw: Gateway, resolve: nat -> DnsOutcome)
    ensures Run(cfg, gw, resolve).result.Issued? <==> forall s :: !StepFails(cfg, gw, resolve, s)
    ensures forall h :: LeastFailing(cfg, gw, resolve, h) ==>
      var t := Run(cfg, gw, resolve).trace;
      var last := StepOf(t[|t| - 1]);
      && Run(cfg, gw, resolve).result == Failed(StepError(cfg, gw, resolve, h))
      && (if MakesCall(h) then last == h else Rank(last) + 1 == Rank(h))
      && forall e :: e in t ==> Rank(StepOf(e)) <= Rank(h)
  {
    RunStopsAtFirstFailure(cfg, gw, resolve);
    FirstFailureIsLeastFailingStep(cfg, gw, resolve);
    forall h | LeastFailing(cfg, gw, resolve, h)
      ensures Run(cfg, gw, resolve).result == Failed(StepError(cfg, gw, resolve, h))
      ensures var t := Run(cfg, gw, resolve).trace;
        (if MakesCall(h) then StepOf(t[|t| - 1]) == h else Rank(StepOf(t[|t| - 1])) + 1 == Rank(h))
        && forall e :: e in t ==> Rank(StepOf(e)) <= Rank(h)
    {
      LeastFailingUnique(cfg, gw, resolve, h, FirstFailure(cfg, gw, resolve).value.step);
    }
  }

  /** The calls of a run whose set-up succeeds, up to and including the
      record shown to the operator. */
  function SetUpCalls(cfg: Config, gw: Gateway): seq<Event>
    requires SetUpFailure(cfg, gw).None?
  {
    var authorization := gw.authorizations.value[0];
    [GenerateAccountKey, CreateAccount(true, ["mailto:" + cfg.email.value]),
     CreateOrder([Identifier("dns", cfg.domain)]), GetAuthorizations(gw.order.value),
     GetKeyAuthorization(FindDns01(authorization.challenges)),
     Prompt(RecordHost(cfg.domain), "TXT", gw.keyAuthorization.value)]
  }

  /** A successful set-up hands on the answers of the gateway and makes
      exactly the calls of `SetUpCalls`. */
  lemma ReadySetUp(cfg: Config, gw: Gateway)
    requires SetUpFailure(cfg, gw).None?
    ensures SetUp(cfg, gw).Ready?
    ensures var s := SetUp(cfg, gw);
      && s.trace + [Prompt(RecordHost(cfg.domain), "TXT", s.keyAuthorization)] == SetUpCalls(cfg, gw)
      && s.order == gw.order.value && s.authorization == gw.authorizations.value[0]
      && Some(s.challenge) == FindDns01(s.authorization.challenges)
      && s.keyAuthorization == gw.keyAuthorization.value
  {
    SetUpStopsAtFirstFailure(cfg, gw);
  }

  /** When no lookup among the first `MaxRetries` finds the key authorization,
      the run throws right after the poll: the record was shown, every lookup
      was followed by a sleep, and the CA was never asked to validate. */
  lemma PropagationFailureEndsRun(cfg: Config, gw: Gateway, resolve: nat -> DnsOutcome)
    requires SetUpFailure(cfg, gw).None? && !Propagated(resolve, gw.keyAuthorization.value)
    ensures Run(cfg, gw, resolve) ==
      Stop(SetUpCalls(cfg, gw) + Rounds(RecordHost(cfg.domain), MaxRetries), Thrown(PropagationFailedMessage))
  {
    ReadySetUp(cfg, gw);
    ProceedWhenPollFails(cfg, gw, resolve, SetUp(cfg, gw));
  }

  /** One call, then two runs of three calls, as one run of seven. */
  lemma ConcatSeven(a: Event, b: seq<Event>, c: seq<Event>)
    requires |b| == 3 && |c| == 3
    ensures [a] + b + c == [a, b[0], b[1], b[2], c[0], c[1], c[2]]
  {
  }

  /** Concatenation regrouped. */
  lemma Regroup(a: seq<Event>, b: seq<Event>, c: seq<Event>, d: seq<Event>, e: seq<Event>)
    ensures a + b + c + d + e == a + b + (c + d + e)
  {
  }

  /** After a successful set-up, a poll that finds the record and CA calls
      that all succeed issue the certificate. */
  lemma ProceedIssues(cfg: Config, gw: Gateway, resolve: nat -> DnsOutcome, s: Setup) returns (k: nat)
    requires s.Ready? && Propagated(resolve, s.keyAuthorization)
    requires ValidationFailure(gw).None? && FinalizationFailure(gw).None?
    ensures FirstMatchAt(resolve, s.keyAuthorization, k)
    ensures var host := RecordHost(cfg.domain);
      Proceed(cfg, gw, resolve, s) ==
        RunOutcome(s.trace + [Prompt(host, "TXT", s.keyAuthorization)] + Rounds(host, k) + [ResolveTxt(host)] +
                   [VerifyChallenge(s.authorization, s.challenge), CompleteChallenge(s.challenge),
                    WaitForValidStatus(s.challenge)] +
                   [CreateCsr(cfg.domain), FinalizeOrder(s.order, gw.csr.value.1), GetCertificate(s.order)],
                   Issued(gw.certificate.value, gw.csr.value.0))
  {
    k := ProceedWhenPollSucceeds(cfg, gw, resolve, s);
    var v := Validate(gw, s.authorization, s.challenge);
    assert v.failure.None? by {
      ValidateStopsAtFirstFailure(gw, s.authorization, s.challenge);
    }
    var f := Finalize(cfg.domain, gw, s.order);
    assert f.result.Issued? by {
      FinalizeStopsAtFirstFailure(cfg.domain, gw, s.order);
    }
  }

  /** A run in which nothing fails issues the certificate and the key of the
      CSR after exactly these calls: set-up, the record shown, lookups with a
      sleep after each unsuccessful one up to the first that finds the
      record, the three validation calls, then the CSR (for the domain), the
      finalization and the certificate download. */
  lemma IssuedRunTrace(cfg: Config, gw: Gateway, resolve: nat -> DnsOutcome) returns (k: nat)
    requires SetUpFailure(cfg, gw).None? && Propagated(resolve, gw.keyAuthorization.value)
    requires ValidationFailure(gw).None? && FinalizationFailure(gw).None?
    ensures && gw.order.Ok? && gw.authorizations.Ok? && |gw.authorizations.value| > 0
            && FindDns01(gw.authorizations.value[0].challenges).Some?
            && gw.keyAuthorization.Ok? && gw.csr.Ok? && gw.certificate.Ok?
    ensures FirstMatchAt(resolve, gw.keyAuthorization.value, k)
    ensures Run(cfg, gw, resolve).result == Issued(gw.certificate.value, gw.csr.value.0)
    ensures var host := RecordHost(cfg.domain);
      var order := gw.order.value;
      var authorization := gw.authorizations.value[0];
      var challenge := FindDns01(authorization.challenges).value;
      Run(cfg, gw, resolve).trace ==
        SetUpCalls(cfg, gw) + Rounds(host, k) +
        [ResolveTxt(host), VerifyChallenge(authorization, challenge), CompleteChallenge(challenge),
         WaitForValidStatus(challenge), CreateCsr(cfg.domain), FinalizeOrder(order, gw.csr.value.1),
         GetCertificate(order)]
  {
    ReadySetUp(cfg, gw);
    var s := SetUp(cfg, gw);
    k := ProceedIssues(cfg, gw, resolve, s);
    assert Run(cfg, gw, resolve) == Proceed(cfg, gw, resolve, s);
    var host := RecordHost(cfg.domain);
    var shown := s.trace + [Prompt(host, "TXT", s.keyAuthorization)];
    var rounds := Rounds(host, k);
    var validation := [VerifyChallenge(s.authorization, s.challenge), CompleteChallenge(s.challenge),
                       WaitForValidStatus(s.challenge)];
    var finalization := [CreateCsr(cfg.domain), FinalizeOrder(s.order, gw.csr.value.1), GetCertificate(s.order)];
    assert Run(cfg, gw, resolve).trace == shown + rounds + [ResolveTxt(host)] + validation + finalization;
    Regroup(shown, rounds, [ResolveTxt(host)], validation, finalization);
    var calls := [ResolveTxt(host), VerifyChallenge(s.authorization, s.challenge), CompleteChallenge(s.challenge),
                  WaitForValidStatus(s.challenge), CreateCsr(cfg.domain), FinalizeOrder(s.order, gw.csr.value.1),
                  GetCertificate(s.order)];
    ConcatSeven(ResolveTxt(host), validation, finalization);
    assert shown == SetUpCalls(cfg, gw);
    assert Run(cfg, gw, resolve).trace == SetUpCalls(cfg, gw) + rounds + calls;
    assert s.challenge == FindDns01(gw.authorizations.value[0].challenges).value;
  }

  /** Without a key authorization found in DNS, the run fails at the poll
      or earlier. */
  lemma FailsBeforeValidation(cfg: Config, gw: Gateway, resolve: nat -> DnsOutcome)
    requires !(gw.keyAuthorization.Ok? && Propagated(resolve, gw.keyAuthorization.value))
    ensures FirstFailure(cfg, gw, resolve).Some?
    ensures Rank(FirstFailure(cfg, gw, resolve).value.step) <= Rank(PropagationPoll)
  {
  }

  /** The CA is asked to validate, and a CSR or certificate is requested, only
      after the key authorization was derived and found by one of the first
      `MaxRetries` lookups. */
  lemma CompletionRequiresPropagation(cfg: Config, gw: Gateway, resolve: nat -> DnsOutcome)
    ensures forall e :: e in Run(cfg, gw, resolve).trace && Rank(PropagationPoll) < Rank(StepOf(e)) ==>
      gw.keyAuthorization.Ok? && Propagated(resolve, gw.keyAuthorization.value)
  {
    if !(gw.keyAuthorization.Ok? && Propagated(resolve, gw.keyAuthorization.value)) {
      RunStopsAtFirstFailure(cfg, gw, resolve);
      FailsBeforeValidation(cfg, gw, resolve);
    }
  }

  /** Set-up only makes calls that precede the operator checkpoint. */
  lemma SetUpSteps(cfg: Config, gw: Gateway)
    ensures forall e :: e in SetUp(cfg, gw).trace ==> Rank(StepOf(e)) < Rank(OperatorCheckpoint)
  {
  }

  /** Set-up moves forward. */
  lemma SetUpForward(cfg: Config, gw: Gateway)
    ensures Forward(SetUp(cfg, gw).trace)
  {
    var t0 := [GenerateAccountKey];
    if gw.accountKey.Ok? && EmailProvided(cfg.email) {
      var t1 := t0 + [CreateAccount(true, ["mailto:" + cfg.email.value])];
      ForwardSnoc(t0, t1[1]);
      if gw.account.Ok? {
        var t2 := t1 + [CreateOrder([Identifier("dns", cfg.domain)])];
        ForwardSnoc(t1, t2[2]);
        if gw.order.Ok? {
          var t3 := t2 + [GetAuthorizations(gw.order.value)];
          ForwardSnoc(t2, t3[3]);
          if gw.authorizations.Ok? && |gw.authorizations.value| > 0 {
            var t4 := t3 + [GetKeyAuthorization(FindDns01(gw.authorizations.value[0].challenges))];
            ForwardSnoc(t3, t4[4]);
          }
        }
      }
    }
  }

  /** Validation only makes calls of its three steps. */
  lemma ValidateSteps(gw: Gateway, authorization: Authorization, challenge: Challenge)
    ensures forall e :: e in Validate(gw, authorization, challenge).trace ==>
      Rank(ChallengeVerification) <= Rank(StepOf(e)) <= Rank(ValidationWait)
  {
  }

  /** Validation moves forward through its three steps. */
  lemma ValidateForward(gw: Gateway, authorization: Authorization, challenge: Challenge)
    ensures Forward(Validate(gw, authorization, challenge).trace)
  {
    var t7 := [VerifyChallenge(authorization, challenge)];
    if gw.verification.Ok? {
      var t8 := t7 + [CompleteChallenge(challenge)];
      ForwardSnoc(t7, t8[1]);
      if gw.completion.Ok? {
        ForwardSnoc(t8, WaitForValidStatus(challenge));
      }
    }
  }

  /** Finalization only makes calls of its three steps. */
  lemma FinalizeSteps(domain: string, gw: Gateway, order: Order)
    ensures forall e :: e in Finalize(domain, gw, order).trace ==> Rank(CsrGeneration) <= Rank(StepOf(e))
  {
  }

  /** Finalization moves forward through its three steps. */
  lemma FinalizeForward(domain: string, gw: Gateway, order: Order)
    ensures Forward(Finalize(domain, gw, order).trace)
  {
    var t10 := [CreateCsr(domain)];
    if gw.csr.Ok? {
      var t11 := t10 + [FinalizeOrder(order, gw.csr.value.1)];
      ForwardSnoc(t10, t11[1]);
      if gw.finalization.Ok? {
        ForwardSnoc(t11, GetCertificate(order));
      }
    }
  }

  /** A run whose set-up succeeded: the set-up calls, the record shown to
      the operator, the poll, then only calls of later steps. */
  lemma ReadyRunParts(cfg: Config, gw: Gateway, resolve: nat -> DnsOutcome, s: Setup)
    returns (tail: seq<Event>)
    requires s.Ready?
    ensures var host := RecordHost(cfg.domain);
      Proceed(cfg, gw, resolve, s).trace ==
        s.trace + [Prompt(host, "TXT", s.keyAuthorization)] +
        PollLoop(host, s.keyAuthorization, resolve, 0).events + tail
    ensures forall e :: e in tail ==> Rank(PropagationPoll) < Rank(StepOf(e))
  {
    var host := RecordHost(cfg.domain);
    var poll := PollLoop(host, s.keyAuthorization, resolve, 0);
    var polled := s.trace + [Prompt(host, "TXT", s.keyAuthorization)] + poll.events;
    if !poll.verified {
      tail := [];
      assert polled + tail == polled;
    } else {
      tail := ValidatedCalls(cfg, gw, s);
      var v := Validate(gw, s.authorization, s.challenge);
      if v.failure.None? {
        assert polled + v.trace + Finalize(cfg.domain, gw, s.order).trace == polled + tail;
      }
    }
  }

  /** The calls after a verified poll all belong to later steps. */
  lemma ValidatedCalls(cfg: Config, gw: Gateway, s: Setup) returns (tail: seq<Event>)
    requires s.Ready?
    ensures var v := Validate(gw, s.authorization, s.challenge);
      tail == if v.failure.Some? then v.trace else v.trace + Finalize(cfg.domain, gw, s.order).trace
    ensures forall e :: e in tail ==> Rank(PropagationPoll) < Rank(StepOf(e))
  {
    var v := Validate(gw, s.authorization, s.challenge);
    ValidateSteps(gw, s.authorization, s.challenge);
    if v.failure.Some? {
      tail := v.trace;
    } else {
      FinalizeSteps(cfg.domain, gw, s.order);
      tail := v.trace + Finalize(cfg.domain, gw, s.order).trace;
    }
  }

  /** A trace made of calls before the checkpoint, the record shown, lookups
      of `host` with sleeps, then calls after the poll, shows only that
      record and looks up only `host`. */
  lemma RecordInParts(before: seq<Event>, host: string, value: string, poll: seq<Event>, after: seq<Event>)
    requires forall e :: e in before ==> Rank(StepOf(e)) < Rank(OperatorCheckpoint)
    requires forall e :: e in poll ==> e == ResolveTxt(host) || e == Sleep
    requires forall e :: e in after ==> Rank(PropagationPoll) < Rank(StepOf(e))
    ensures forall h :: ResolveTxt(h) in before + [Prompt(host, "TXT", value)] + poll + after ==> h == host
    ensures forall h, ty, v :: Prompt(h, ty, v) in before + [Prompt(host, "TXT", value)] + poll + after ==>
      h == host && ty == "TXT" && v == value
  {
    var trace := before + [Prompt(host, "TXT", value)] + poll + after;
    forall e | e in trace
      ensures e in before || e == Prompt(host, "TXT", value) || e in poll || e in after
    {
    }
  }

  /** Calls made before the checkpoint neither show a record nor look one up. */
  lemma NoRecordBeforeCheckpoint(t: seq<Event>)
    requires forall e :: e in t ==> Rank(StepOf(e)) < Rank(OperatorCheckpoint)
    ensures forall e :: e in t ==> !e.ResolveTxt? && !e.Prompt?
  {
  }

  /** A run that stops during set-up neither shows a record nor looks one up. */
  lemma HaltedRunShowsNoRecord(cfg: Config, gw: Gateway, resolve: nat -> DnsOutcome)
    requires SetUp(cfg, gw).Halted?
    ensures forall e :: e in Run(cfg, gw, resolve).trace ==> !e.ResolveTxt? && !e.Prompt?
  {
    var t := SetUp(cfg, gw).trace;
    SetUpSteps(cfg, gw);
    NoRecordBeforeCheckpoint(t);
    assert Run(cfg, gw, resolve).trace == t;
  }

  /** After a successful set-up, the record shown and every lookup name
      `_acme-challenge.<domain>`, and the value shown is the key authorization. */
  lemma ProceedRecordFixed(cfg: Config, gw: Gateway, resolve: nat -> DnsOutcome, s: Setup)
    requires s.Ready?
    requires forall e :: e in s.trace ==> Rank(StepOf(e)) < Rank(OperatorCheckpoint)
    ensures forall h :: ResolveTxt(h) in Proceed(cfg, gw, resolve, s).trace ==> h == RecordHost(cfg.domain)
    ensures forall h, ty, v :: Prompt(h, ty, v) in Proceed(cfg, gw, resolve, s).trace ==>
      h == RecordHost(cfg.domain) && ty == "TXT" && v == s.keyAuthorization
  {
    var host := RecordHost(cfg.domain);
    PollLoopCalls(host, s.keyAuthorization, resolve);
    var tail := ReadyRunParts(cfg, gw, resolve, s);
    RecordInParts(s.trace, host, s.keyAuthorization, PollLoop(host, s.keyAuthorization, resolve, 0).events, tail);
  }

  /** The record shown to the operator names `_acme-challenge.<domain>` and the
      key authorization, and every lookup asks for that same host. */
  lemma ChallengeRecordFixed(cfg: Config, gw: Gateway, resolve: nat -> DnsOutcome)
    ensures forall h :: ResolveTxt(h) in Run(cfg, gw, resolve).trace ==> h == RecordHost(cfg.domain)
    ensures forall h, ty, v :: Prompt(h, ty, v) in Run(cfg, gw, resolve).trace ==>
      h == RecordHost(cfg.domain) && ty == "TXT" && gw.keyAuthorization == Ok(v)
  {
    var s := SetUp(cfg, gw);
    if s.Ready? {
      SetUpSteps(cfg, gw);
      ProceedRecordFixed(cfg, gw, resolve, s);
    } else {
      HaltedRunShowsNoRecord(cfg, gw, resolve);
    }
  }

  /** The calls after a verified poll keep a forward trace forward. */
  lemma ValidatedForward(cfg: Config, gw: Gateway, setup: Setup, polled: seq<Event>)
    requires setup.Ready?
    requires Forward(polled) && |polled| > 0 && StepOf(polled[|polled| - 1]) == PropagationPoll
    ensures var v := Validate(gw, setup.authorization, setup.challenge);
      Forward(polled + v.trace) &&
      (v.failure.None? ==> Forward(polled + v.trace + Finalize(cfg.domain, gw, setup.order).trace))
  {
    var v := Validate(gw, setup.authorization, setup.challenge);
    ValidateForward(gw, setup.authorization, setup.challenge);
    ForwardConcat(polled, v.trace);
    if v.failure.None? {
      var f := Finalize(cfg.domain, gw, setup.order);
      FinalizeForward(cfg.domain, gw, setup.order);
      var joined := polled + v.trace;
      assert joined[|joined| - 1] == v.trace[2];
      ForwardConcat(joined, f.trace);
    }
  }

  /** The poll is forward: it only looks up and sleeps. */
  lemma PollForward(host: string, value: string, resolve: nat -> DnsOutcome)
    ensures Forward(PollLoop(host, value, resolve, 0).events)
  {
    PollLoopCalls(host, value, resolve);
    PollEventsForward(PollLoop(host, value, resolve, 0).events, host);
  }

  /** A poll that starts with a lookup and ends with a lookup or a sleep
      starts and ends in the poll step. */
  lemma PollEndsInPoll(p: Poll, host: string)
    requires |p.events| > 0 && p.events[0] == ResolveTxt(host)
    requires p.events[|p.events| - 1] == (if p.verified then ResolveTxt(host) else Sleep)
    ensures StepOf(p.events[0]) == PropagationPoll && StepOf(p.events[|p.events| - 1]) == PropagationPoll
  {
    if p.verified {
      assert p.events[|p.events| - 1] == ResolveTxt(host);
    }
  }

  /** Showing the record and then polling keep a forward set-up trace forward. */
  lemma PolledForward(trace: seq<Event>, prompt: Event, events: seq<Event>)
    requires Forward(trace) && |trace| > 0
    requires Rank(StepOf(trace[|trace| - 1])) < Rank(OperatorCheckpoint) && prompt.Prompt?
    requires Forward(events) && |events| > 0 && StepOf(events[0]) == PropagationPoll
    ensures Forward(trace + [prompt] + events)
    ensures (trace + [prompt] + events)[|trace| + |events|] == events[|events| - 1]
  {
    ForwardSnoc(trace, prompt);
    ForwardConcat(trace + [prompt], events);
  }

  /** A forward set-up trace stays forward through the record prompt and the poll. */
  lemma PolledIsForward(cfg: Config, resolve: nat -> DnsOutcome, s: Setup)
    requires s.Ready? && Forward(s.trace) && |s.trace| > 0
    requires Rank(StepOf(s.trace[|s.trace| - 1])) < Rank(OperatorCheckpoint)
    ensures var host := RecordHost(cfg.domain);
      var polled := s.trace + [Prompt(host, "TXT", s.keyAuthorization)] +
        PollLoop(host, s.keyAuthorization, resolve, 0).events;
      Forward(polled) && StepOf(polled[|polled| - 1]) == PropagationPoll
  {
    var host := RecordHost(cfg.domain);
    var events := PollLoop(host, s.keyAuthorization, resolve, 0).events;
    PollForward(host, s.keyAuthorization, resolve);
    PollLoopEnds(host, s.keyAuthorization, resolve);
    PollEndsInPoll(PollLoop(host, s.keyAuthorization, resolve, 0), host);
    PolledForward(s.trace, Prompt(host, "TXT", s.keyAuthorization), events);
  }

  /** What follows a forward set-up keeps the run forward. */
  lemma ProceedIsForward(cfg: Config, gw: Gateway, resolve: nat -> DnsOutcome, s: Setup)
    requires Forward(s.trace) && |s.trace| > 0
    requires s.Ready? ==> Rank(StepOf(s.trace[|s.trace| - 1])) < Rank(OperatorCheckpoint)
    ensures Forward(Proceed(cfg, gw, resolve, s).trace)
  {
    if s.Ready? {
      var host := RecordHost(cfg.domain);
      PolledIsForward(cfg, resolve, s);
      ValidatedForward(cfg, gw, s, s.trace + [Prompt(host, "TXT", s.keyAuthorization)] +
        PollLoop(host, s.keyAuthorization, resolve, 0).events);
    }
  }

  /** Every run moves strictly forward through the steps of index.js: no
      call is repeated except the lookups and sleeps of the poll, and no call
      of an earlier step follows a later one. */
  lemma RunIsForward(cfg: Config, gw: Gateway, resolve: nat -> DnsOutcome)
    ensures Forward(Run(cfg, gw, resolve).trace)
  {
    var setup := SetUp(cfg, gw);
    SetUpForward(cfg, gw);
    SetUpSteps(cfg, gw);
    assert setup.trace[|setup.trace| - 1] in setup.trace;
    ProceedIsForward(cfg, gw, resolve, setup);
  }
}
