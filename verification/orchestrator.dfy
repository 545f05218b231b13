/**
 The issuance run of index.js as a pure function of its configuration and of
 its collaborators' answers: the account key generator, the ACME client
 calls, and the DNS resolver. The run emits one event per call it makes and
 ends either with the certificate and its private key or in the single catch.
 */
module Orchestrator {
  import opened AcmeTypes
  import opened Propagation

  const NoEmailMessage: string := "No email provided in .env file"
  const PropagationFailedMessage: string := "DNS propagation failed, TXT record not found."

  /** The label put in front of the domain to name the TXT record. */
  const ChallengeLabel: string := "_acme-challenge."

  /** `DOMAIN` and `EMAIL` as read from the environment; `EMAIL` may be unset. */
  datatype Config = Config(domain: string, email: Option<string>)

  /** The fixed answers of the collaborators for one run. Each call is made at
      most once per run, so one answer per call describes the run completely.
      `csr` answers `[key, csr]`. */
  datatype Gateway = Gateway(
    accountKey: Result<string>,
    account: Result<()>,
    order: Result<Order>,
    authorizations: Result<seq<Authorization>>,
    keyAuthorization: Result<string>,
    verification: Result<()>,
    completion: Result<()>,
    validStatus: Result<()>,
    csr: Result<(string, string)>,
    finalization: Result<()>,
    certificate: Result<string>)

  datatype RunOutcome = RunOutcome(trace: seq<Event>, result: RunResult)

  /** JavaScript truthiness of `process.env.EMAIL`: unset and "" are falsy. */
  predicate EmailProvided(email: Option<string>)
  {
    email.Some? && email.value != ""
  }

  /** The TXT record name, `_acme-challenge.${domain}`. */
  function RecordHost(domain: string): string
  {
    ChallengeLabel + domain
  }

  /** The inverse of `RecordHost`: the domain a challenge record name is for. */
  function DomainOfHost(host: string): (d: Option<string>)
    ensures d.Some? ==> |d.value| + |ChallengeLabel| == |host|
  {
    if |ChallengeLabel| <= |host| && host[..|ChallengeLabel|] == ChallengeLabel
    then Some(host[|ChallengeLabel|..])
    else None
  }

  /** Record names and domains correspond one to one. */
  lemma RecordHostRoundTrip(domain: string, host: string)
    ensures DomainOfHost(RecordHost(domain)) == Some(domain)
    ensures DomainOfHost(host) == Some(domain) ==> RecordHost(domain) == host
  {
    var h := RecordHost(domain);
    assert h[..|ChallengeLabel|] == ChallengeLabel;
    assert h[|ChallengeLabel|..] == domain;
    if DomainOfHost(host) == Some(domain) {
      assert host == host[..|ChallengeLabel|] + host[|ChallengeLabel|..];
    }
  }

  /** `challenges.find(chal => chal.type === 'dns-01')`: the first dns-01
      challenge, or `undefined` when there is none. */
  function FindDns01(challenges: seq<Challenge>): (found: Option<Challenge>)
    ensures found.None? <==> forall c :: c in challenges ==> c.kind != "dns-01"
    ensures found.Some? ==> found.value.kind == "dns-01"
    ensures found.Some? ==>
      exists i :: 0 <= i < |challenges| && challenges[i] == found.value &&
        forall j :: 0 <= j < i ==> challenges[j].kind != "dns-01"
  {
    if |challenges| == 0 then None
    else if challenges[0].kind == "dns-01" then Some(challenges[0])
    else
      var rest := FindDns01(challenges[1..]);
      assert forall c :: c in challenges[1..] ==> c in challenges;
      assert forall c :: c in challenges ==> c == challenges[0] || c in challenges[1..];
      if rest.Some? then
        var i :| 0 <= i < |challenges[1..]| && challenges[1..][i] == rest.value &&
          forall j :: 0 <= j < i ==> challenges[1..][j].kind != "dns-01";
        assert challenges[i + 1] == rest.value;
        assert forall j :: 0 <= j < i + 1 ==> challenges[j].kind != "dns-01" by {
          forall j | 0 <= j < i + 1
            ensures challenges[j].kind != "dns-01"
          {
            if j > 0 { assert challenges[j] == challenges[1..][j - 1]; }
          }
        }
        rest
      else
        rest
  }

  function Stop(trace: seq<Event>, error: Failure): RunOutcome
  {
    RunOutcome(trace, Failed(error))
  }

  /** Where the run stands once the key authorization is known: stopped in the
      catch, or holding the order, the first authorization, its dns-01
      challenge and the expected TXT value. */
  datatype Setup =
    | Halted(trace: seq<Event>, error: Failure)
    | Ready(trace: seq<Event>, order: Order, authorization: Authorization,
            challenge: Challenge, keyAuthorization: string)

  /** Lines 17-39: account key, email guard, account, order, authorizations,
      challenge selection and key authorization. */
  function SetUp(cfg: Config, gw: Gateway): (s: Setup)
    ensures |s.trace| > 0 && s.trace[0] == GenerateAccountKey
    ensures s.Ready? <==>
      && gw.accountKey.Ok? && EmailProvided(cfg.email) && gw.account.Ok? && gw.order.Ok?
      && gw.authorizations.Ok? && |gw.authorizations.value| > 0
      && (exists c :: c in gw.authorizations.value[0].challenges && c.kind == "dns-01")
      && gw.keyAuthorization.Ok?
    ensures s.Ready? ==>
      && s.trace == [GenerateAccountKey, CreateAccount(true, ["mailto:" + cfg.email.value]),
                     CreateOrder([Identifier("dns", cfg.domain)]), GetAuthorizations(s.order),
                     GetKeyAuthorization(Some(s.challenge))]
      && gw.order == Ok(s.order) && s.authorization == gw.authorizations.value[0]
      && FindDns01(s.authorization.challenges) == Some(s.challenge)
      && gw.keyAuthorization == Ok(s.keyAuthorization)
    ensures !EmailProvided(cfg.email) ==> s.trace == [GenerateAccountKey]
  {
    var t0 := [GenerateAccountKey];
    if gw.accountKey.Err? then Halted(t0, Thrown(gw.accountKey.message))
    else if !EmailProvided(cfg.email) then Halted(t0, Thrown(NoEmailMessage))
    else
      var t1 := t0 + [CreateAccount(true, ["mailto:" + cfg.email.value])];
      if gw.account.Err? then Halted(t1, Thrown(gw.account.message))
      else
        var t2 := t1 + [CreateOrder([Identifier("dns", cfg.domain)])];
        if gw.order.Err? then Halted(t2, Thrown(gw.order.message))
        else
          var order := gw.order.value;
          var t3 := t2 + [GetAuthorizations(order)];
          if gw.authorizations.Err? then Halted(t3, Thrown(gw.authorizations.message))
          // `const [authorization] = []` leaves it undefined; `.challenges` throws
          else if |gw.authorizations.value| == 0 then Halted(t3, TypeError("authorization"))
          else
            var authorization := gw.authorizations.value[0];
            var challenge := FindDns01(authorization.challenges);
            var t4 := t3 + [GetKeyAuthorization(challenge)];
            // the client reads the fields of the challenge it is given
            if challenge.None? then Halted(t4, TypeError("challenge"))
            else if gw.keyAuthorization.Err? then Halted(t4, Thrown(gw.keyAuthorization.message))
            else Ready(t4, order, authorization, challenge.value, gw.keyAuthorization.value)
  }

  /** How a stage between the poll and the certificate ended: the calls it
      made and, when one of them threw, the failure. */
  datatype Stage = Stage(trace: seq<Event>, failure: Option<Failure>)

  /** Lines 79-81: ask the CA to verify and complete the challenge, then wait
      for it to become valid. */
  function Validate(gw: Gateway, authorization: Authorization, challenge: Challenge): (v: Stage)
    ensures |v.trace| > 0 && v.trace[0] == VerifyChallenge(authorization, challenge)
    ensures v.failure.None? <==> gw.verification.Ok? && gw.completion.Ok? && gw.validStatus.Ok?
    ensures v.failure.None? ==>
      v.trace == [VerifyChallenge(authorization, challenge), CompleteChallenge(challenge),
                  WaitForValidStatus(challenge)]
  {
    var t7 := [VerifyChallenge(authorization, challenge)];
    if gw.verification.Err? then Stage(t7, Some(Thrown(gw.verification.message)))
    else
      var t8 := t7 + [CompleteChallenge(challenge)];
      if gw.completion.Err? then Stage(t8, Some(Thrown(gw.completion.message)))
      else
        var t9 := t8 + [WaitForValidStatus(challenge)];
        if gw.validStatus.Err? then Stage(t9, Some(Thrown(gw.validStatus.message)))
        else Stage(t9, None)
  }

  /** Lines 83-88: build a key and CSR whose common name is the domain,
      finalize the order with the CSR and fetch the certificate. */
  function Finalize(domain: string, gw: Gateway, order: Order): (f: RunOutcome)
    ensures |f.trace| > 0 && f.trace[0] == CreateCsr(domain)
    ensures f.result.Issued? <==> gw.csr.Ok? && gw.finalization.Ok? && gw.certificate.Ok?
    ensures f.result.Issued? ==>
      && f.trace == [CreateCsr(domain), FinalizeOrder(order, gw.csr.value.1), GetCertificate(order)]
      && f.result == Issued(gw.certificate.value, gw.csr.value.0)
  {
    var t10 := [CreateCsr(domain)];
    if gw.csr.Err? then Stop(t10, Thrown(gw.csr.message))
    else
      var (key, csr) := gw.csr.value;
      var t11 := t10 + [FinalizeOrder(order, csr)];
      if gw.finalization.Err? then Stop(t11, Thrown(gw.finalization.message))
      else
        var t12 := t11 + [GetCertificate(order)];
        if gw.certificate.Err? then Stop(t12, Thrown(gw.certificate.message))
        else RunOutcome(t12, Issued(gw.certificate.value, key))
  }

  /** The async body of index.js: set up (lines 17-39), then proceed. */
  function Run(cfg: Config, gw: Gateway, resolve: nat -> DnsOutcome): RunOutcome
  {
    Proceed(cfg, gw, resolve, SetUp(cfg, gw))
  }

  /** Show the record and wait for the operator (lines 41-51), poll DNS
      (lines 55-71), throw unless verified (lines 73-75), validate, then
      finalize. Every failure ends the run in the catch with the trace
      recorded so far. */
  function Proceed(cfg: Config, gw: Gateway, resolve: nat -> DnsOutcome, setup: Setup): RunOutcome
  {
    match setup
    case Halted(t, error) => Stop(t, error)
    case Ready(t, order, authorization, challenge, value) =>
      var host := RecordHost(cfg.domain);
      var poll := PollLoop(host, value, resolve, 0);
      var polled := t + [Prompt(host, "TXT", value)] + poll.events;
      if !poll.verified then Stop(polled, Thrown(PropagationFailedMessage))
      else
        var v := Validate(gw, authorization, challenge);
        if v.failure.Some? then Stop(polled + v.trace, v.failure.value)
        else
          var f := Finalize(cfg.domain, gw, order);
          RunOutcome(polled + v.trace + f.trace, f.result)
  }

  /** Where a run stops and what reaches the catch. */
  datatype Halt = Halt(step: Step, error: Failure)

  /** Reference view of set-up without its trace: the first guard or call of
      lines 17-39 that fails, in program order. */
  function SetUpFailure(cfg: Config, gw: Gateway): Option<Halt>
  {
    if gw.accountKey.Err? then Some(Halt(KeyGeneration, Thrown(gw.accountKey.message)))
    else if !EmailProvided(cfg.email) then Some(Halt(EmailGuard, Thrown(NoEmailMessage)))
    else if gw.account.Err? then Some(Halt(AccountCreation, Thrown(gw.account.message)))
    else if gw.order.Err? then Some(Halt(OrderCreation, Thrown(gw.order.message)))
    else if gw.authorizations.Err? then Some(Halt(AuthorizationFetch, Thrown(gw.authorizations.message)))
    else if |gw.authorizations.value| == 0 then Some(Halt(ChallengeSelection, TypeError("authorization")))
    else if !(exists c :: c in gw.authorizations.value[0].challenges && c.kind == "dns-01") then
      Some(Halt(KeyAuthorizationDerivation, TypeError("challenge")))
    else if gw.keyAuthorization.Err? then
      Some(Halt(KeyAuthorizationDerivation, Thrown(gw.keyAuthorization.message)))
    else None
  }

  /** Reference view of lines 79-81: the first of the three CA calls that throws. */
  function ValidationFailure(gw: Gateway): Option<Halt>
  {
    if gw.verification.Err? then Some(Halt(ChallengeVerification, Thrown(gw.verification.message)))
    else if gw.completion.Err? then Some(Halt(ChallengeCompletion, Thrown(gw.completion.message)))
    else if gw.validStatus.Err? then Some(Halt(ValidationWait, Thrown(gw.validStatus.message)))
    else None
  }

  /** Reference view of lines 83-88: the first of the CSR, finalize and
      certificate calls that throws. */
  function FinalizationFailure(gw: Gateway): Option<Halt>
  {
    if gw.csr.Err? then Some(Halt(CsrGeneration, Thrown(gw.csr.message)))
    else if gw.finalization.Err? then Some(Halt(Finalization, Thrown(gw.finalization.message)))
    else if gw.certificate.Err? then Some(Halt(CertificateRetrieval, Thrown(gw.certificate.message)))
    else None
  }

  /** Reference view of a whole run without its trace: where it stops, or
      `None` when it issues the certificate. The poll fails exactly when
      none of the first `MaxRetries` lookups finds the key authorization. */
  function FirstFailure(cfg: Config, gw: Gateway, resolve: nat -> DnsOutcome): Option<Halt>
  {
    var setUp := SetUpFailure(cfg, gw);
    if setUp.Some? then setUp
    else if !Propagated(resolve, gw.keyAuthorization.value) then
      Some(Halt(PropagationPoll, Thrown(PropagationFailedMessage)))
    else if ValidationFailure(gw).Some? then ValidationFailure(gw)
    else FinalizationFailure(gw)
  }

  /** Whether one step of the run fails, judged on that step alone: its own
      guard, or the answer of its own CA call. A step that reads an earlier
      call's value fails only when that value is there to read; a run that
      never reaches a step is stopped by an earlier failing step. */
  predicate StepFails(cfg: Config, gw: Gateway, resolve: nat -> DnsOutcome, s: Step)
  {
    match s
    case KeyGeneration => gw.accountKey.Err?
    case EmailGuard => !EmailProvided(cfg.email)
    case AccountCreation => gw.account.Err?
    case OrderCreation => gw.order.Err?
    case AuthorizationFetch => gw.authorizations.Err?
    case ChallengeSelection => gw.authorizations.Ok? && |gw.authorizations.value| == 0
    case KeyAuthorizationDerivation => gw.keyAuthorization.Err? || LacksDns01(gw)
    case OperatorCheckpoint => false
    case PropagationPoll =>
      gw.keyAuthorization.Ok? && !Propagated(resolve, gw.keyAuthorization.value)
    case ChallengeVerification => gw.verification.Err?
    case ChallengeCompletion => gw.completion.Err?
    case ValidationWait => gw.validStatus.Err?
    case CsrGeneration => gw.csr.Err?
    case Finalization => gw.finalization.Err?
    case CertificateRetrieval => gw.certificate.Err?
  }

  /** The first authorization exists and offers no dns-01 challenge, so the
      `find` of line 37 gives `undefined` and the key authorization is asked
      for it (line 39). */
  predicate LacksDns01(gw: Gateway)
  {
    && gw.authorizations.Ok?
    && |gw.authorizations.value| > 0
    && forall c :: c in gw.authorizations.value[0].challenges ==> c.kind != "dns-01"
  }

  /** The error a failing step throws into the catch block of line 98. */
  function StepError(cfg: Config, gw: Gateway, resolve: nat -> DnsOutcome, s: Step): Failure
    requires StepFails(cfg, gw, resolve, s)
  {
    match s
    case KeyGeneration => Thrown(gw.accountKey.message)
    case EmailGuard => Thrown(NoEmailMessage)
    case AccountCreation => Thrown(gw.account.message)
    case OrderCreation => Thrown(gw.order.message)
    case AuthorizationFetch => Thrown(gw.authorizations.message)
    case ChallengeSelection => TypeError("authorization")
    case KeyAuthorizationDerivation =>
      if LacksDns01(gw) then TypeError("challenge") else Thrown(gw.keyAuthorization.message)
    case OperatorCheckpoint => assert false; Thrown("")
    case PropagationPoll => Thrown(PropagationFailedMessage)
    case ChallengeVerification => Thrown(gw.verification.message)
    case ChallengeCompletion => Thrown(gw.completion.message)
    case ValidationWait => Thrown(gw.validStatus.message)
    case CsrGeneration => Thrown(gw.csr.message)
    case Finalization => Thrown(gw.finalization.message)
    case CertificateRetrieval => Thrown(gw.certificate.message)
  }

  /** `h` fails and no step before it in program order does. */
  predicate LeastFailing(cfg: Config, gw: Gateway, resolve: nat -> DnsOutcome, h: Step)
  {
    && StepFails(cfg, gw, resolve, h)
    && forall s :: Rank(s) < Rank(h) ==> !StepFails(cfg, gw, resolve, s)
  }
}
