/**
 The values that flow through one issuance run: the answers of the collaborators,
 the handles the ACME client hands back, the events a run emits and how it ends.
 */
module AcmeTypes {

  /** JavaScript's `undefined` versus a present value. */
  datatype Option<+T> = None | Some(value: T)

  /** What one awaited collaborator call yields: its value, or the Error it threw. */
  datatype Result<+T> = Ok(value: T) | Err(message: string)

  /** An order identifier, `{ type, value }`. */
  datatype Identifier = Identifier(kind: string, value: string)

  /** Opaque handles returned by the ACME client. */
  datatype Order = Order(url: string)
  datatype Challenge = Challenge(kind: string, url: string, token: string)
  datatype Authorization = Authorization(url: string, challenges: seq<Challenge>)

  /** One observable action of a run, in the order the run performs it. */
  datatype Event =
    | GenerateAccountKey
    | CreateAccount(termsOfServiceAgreed: bool, contact: seq<string>)
    | CreateOrder(identifiers: seq<Identifier>)
    | GetAuthorizations(order: Order)
    | GetKeyAuthorization(selected: Option<Challenge>)
      // the record shown to the operator, then the operator pressing Enter
    | Prompt(host: string, recordType: string, value: string)
    | ResolveTxt(hostname: string)
    | Sleep
    | VerifyChallenge(authorization: Authorization, challenge: Challenge)
    | CompleteChallenge(challenge: Challenge)
    | WaitForValidStatus(challenge: Challenge)
    | CreateCsr(commonName: string)
    | FinalizeOrder(order: Order, csr: string)
    | GetCertificate(order: Order)

  /** What reaches the single catch: an `Error` with its message, or a
      TypeError from reading a property of `undefined`. */
  datatype Failure = Thrown(message: string) | TypeError(undefinedValue: string)

  datatype RunResult = Issued(certificate: string, privateKey: string) | Failed(error: Failure)

  /** The steps of a run, in their fixed forward order. */
  datatype Step =
    | KeyGeneration
    | EmailGuard
    | AccountCreation
    | OrderCreation
    | AuthorizationFetch
    | ChallengeSelection
    | KeyAuthorizationDerivation
    | OperatorCheckpoint
    | PropagationPoll
    | ChallengeVerification
    | ChallengeCompletion
    | ValidationWait
    | CsrGeneration
    | Finalization
    | CertificateRetrieval

  function Rank(s: Step): nat
  {
    match s
    case KeyGeneration => 0
    case EmailGuard => 1
    case AccountCreation => 2
    case OrderCreation => 3
    case AuthorizationFetch => 4
    case ChallengeSelection => 5
    case KeyAuthorizationDerivation => 6
    case OperatorCheckpoint => 7
    case PropagationPoll => 8
    case ChallengeVerification => 9
    case ChallengeCompletion => 10
    case ValidationWait => 11
    case CsrGeneration => 12
    case Finalization => 13
    case CertificateRetrieval => 14
  }

  /** The number of steps. */
  const StepCount: nat := 15

  /** The step of a given rank: the inverse of `Rank`. */
  function StepAt(r: nat): (s: Step)
    requires r < StepCount
    ensures Rank(s) == r
  {
    if r == 0 then KeyGeneration
    else if r == 1 then EmailGuard
    else if r == 2 then AccountCreation
    else if r == 3 then OrderCreation
    else if r == 4 then AuthorizationFetch
    else if r == 5 then ChallengeSelection
    else if r == 6 then KeyAuthorizationDerivation
    else if r == 7 then OperatorCheckpoint
    else if r == 8 then PropagationPoll
    else if r == 9 then ChallengeVerification
    else if r == 10 then ChallengeCompletion
    else if r == 11 then ValidationWait
    else if r == 12 then CsrGeneration
    else if r == 13 then Finalization
    else CertificateRetrieval
  }

  /** Ranks number the steps one to one, from 0 to `StepCount - 1`. */
  lemma RankIsOneToOne(s: Step, t: Step)
    ensures Rank(s) < StepCount && StepAt(Rank(s)) == s
    ensures Rank(s) == Rank(t) ==> s == t
  {
  }

  /** The step an event belongs to. The email guard and the challenge
      selection make no call, so no event belongs to them. */
  function StepOf(e: Event): (s: Step)
    ensures s != EmailGuard && s != ChallengeSelection
  {
    match e
    case GenerateAccountKey => KeyGeneration
    case CreateAccount(_, _) => AccountCreation
    case CreateOrder(_) => OrderCreation
    case GetAuthorizations(_) => AuthorizationFetch
    case GetKeyAuthorization(_) => KeyAuthorizationDerivation
    case Prompt(_, _, _) => OperatorCheckpoint
    case ResolveTxt(_) => PropagationPoll
    case Sleep => PropagationPoll
    case VerifyChallenge(_, _) => ChallengeVerification
    case CompleteChallenge(_) => ChallengeCompletion
    case WaitForValidStatus(_) => ValidationWait
    case CreateCsr(_) => CsrGeneration
    case FinalizeOrder(_, _) => Finalization
    case GetCertificate(_) => CertificateRetrieval
  }

  /** Every step but the email guard and the challenge selection makes a call. */
  predicate MakesCall(s: Step)
  {
    s != EmailGuard && s != ChallengeSelection
  }

  /** Two consecutive calls move to a later step, or both belong to the poll. */
  predicate Advances(e: Event, next: Event)
  {
    Rank(StepOf(e)) < Rank(StepOf(next)) ||
    (StepOf(e) == PropagationPoll && StepOf(next) == PropagationPoll)
  }

  /** The call at `i` is followed by one that advances from it. */
  ghost predicate AdvancesAt(trace: seq<Event>, i: nat)
    requires i + 1 < |trace|
  {
    Advances(trace[i], trace[i + 1])
  }

  /** A trace moves forward through the steps, one call after another; only
      the poll step may contribute several consecutive events. */
  ghost predicate Forward(trace: seq<Event>)
  {
    forall i: nat :: i + 1 < |trace| ==> AdvancesAt(trace, i)
  }

  /** A forward trace followed by a call of a later step, or by another call
      of the poll after a poll call, is forward. */
  lemma ForwardSnoc(trace: seq<Event>, e: Event)
    requires Forward(trace)
    requires |trace| > 0 ==> Advances(trace[|trace| - 1], e)
    ensures Forward(trace + [e])
  {
    forall i: nat | i + 1 < |trace + [e]|
      ensures AdvancesAt(trace + [e], i)
    {
      if i + 1 < |trace| {
        assert AdvancesAt(trace, i);
      }
    }
  }

  /** Adjacent forward steps give forward steps between any two events: a step
      other than the poll never occurs twice, and no event precedes an earlier step. */
  lemma {:induction false} ForwardIsOrdered(trace: seq<Event>, i: nat, j: nat)
    requires Forward(trace)
    requires i < j < |trace|
    ensures Rank(StepOf(trace[i])) <= Rank(StepOf(trace[j]))
    ensures StepOf(trace[i]) != PropagationPoll ==> Rank(StepOf(trace[i])) < Rank(StepOf(trace[j]))
    decreases j - i
  {
    if i + 1 < j {
      ForwardIsOrdered(trace, i, j - 1);
      assert AdvancesAt(trace, j - 1);
    } else {
      assert AdvancesAt(trace, i);
    }
  }

  /** Every call of a forward trace lies between the steps of its first and last calls. */
  lemma ForwardBounds(trace: seq<Event>)
    requires Forward(trace) && |trace| > 0
    ensures forall e :: e in trace ==>
      Rank(StepOf(trace[0])) <= Rank(StepOf(e)) <= Rank(StepOf(trace[|trace| - 1]))
  {
    forall e | e in trace
      ensures Rank(StepOf(trace[0])) <= Rank(StepOf(e)) <= Rank(StepOf(trace[|trace| - 1]))
    {
      var i :| 0 <= i < |trace| && trace[i] == e;
      if 0 < i { ForwardIsOrdered(trace, 0, i); }
      if i < |trace| - 1 { ForwardIsOrdered(trace, i, |trace| - 1); }
    }
  }
}
