/**
 Concrete runs of the issuance script, each stated as the exact calls made
 and how the run ends.
 */
module Scenarios {
  import opened AcmeTypes
  import opened Propagation
  import opened Orchestrator
  import opened RunProperties

  const Operator: Config := Config("example.test", Some("ops@example.test"))
  const Host: string := "_acme-challenge.example.test"
  const Http01: Challenge := Challenge("http-01", "chall-http", "token-http")
  const Dns01: Challenge := Challenge("dns-01", "chall-dns", "token-dns")
  const Authz: Authorization := Authorization("authz-1", [Http01, Dns01])
  const OrderOne: Order := Order("order-1")

  /** A CA that accepts every call and derives the key authorization `abc123`. */
  function Accepting(authorizations: seq<Authorization>): (gw: Gateway)
    ensures gw.keyAuthorization == Ok("abc123") && gw.authorizations == Ok(authorizations)
  {
    Gateway(Ok("account-key"), Ok(()), Ok(OrderOne), Ok(authorizations), Ok("abc123"),
            Ok(()), Ok(()), Ok(()), Ok(("private-key", "csr")), Ok(()), Ok("certificate"))
  }

  /** The resolver fails first, then answers an unrelated record, then the
      expected one. */
  function ThirdTime(k: nat): DnsOutcome
  {
    if k == 0 then DnsError("ENOTFOUND")
    else if k == 1 then Records([["other"]])
    else Records([["abc123"]])
  }

  /** A resolver that never finds the name. */
  function NeverFound(k: nat): DnsOutcome
  {
    DnsError("ENOTFOUND")
  }

  /** Two unsuccessful lookups of `host`, each followed by a sleep. */
  lemma TwoRounds(host: string)
    ensures Rounds(host, 2) == [ResolveTxt(host), Sleep, ResolveTxt(host), Sleep]
  {
    assert Rounds(host, 1) == [] + [ResolveTxt(host), Sleep];
  }

  /** The record shows up on the third lookup: the set-up calls and the
      record shown, then three lookups with a sleep after the first two, then
      validation, finalization with a CSR for the domain, and the certificate
      with the CSR's key. */
  lemma IssuedOnThirdLookup()
    ensures Run(Operator, Accepting([Authz]), ThirdTime).result == Issued("certificate", "private-key")
    ensures Run(Operator, Accepting([Authz]), ThirdTime).trace ==
      [GenerateAccountKey, CreateAccount(true, ["mailto:ops@example.test"]),
       CreateOrder([Identifier("dns", "example.test")]), GetAuthorizations(OrderOne),
       GetKeyAuthorization(Some(Dns01)), Prompt(Host, "TXT", "abc123")] +
      [ResolveTxt(Host), Sleep, ResolveTxt(Host), Sleep] +
      [ResolveTxt(Host), VerifyChallenge(Authz, Dns01), CompleteChallenge(Dns01), WaitForValidStatus(Dns01),
       CreateCsr("example.test"), FinalizeOrder(OrderOne, "csr"), GetCertificate(OrderOne)]
  {
    var gw := Accepting([Authz]);
    assert RecordHost("example.test") == Host;
    assert "mailto:" + "ops@example.test" == "mailto:ops@example.test";
    assert Dns01 in Authz.challenges && Dns01.kind == "dns-01";
    assert FindDns01(Authz.challenges) == Some(Dns01);
    assert Matches(ThirdTime(2), "abc123") by {
      assert ThirdTime(2).records[0][0] == "abc123";
    }
    assert !Matches(ThirdTime(0), "abc123");
    assert !Matches(ThirdTime(1), "abc123");
    var k := IssuedRunTrace(Operator, gw, ThirdTime);
    assert k == 2;
    TwoRounds(Host);
  }

  /** The name never resolves: after any successful set-up, thirty lookups,
      each followed by a sleep, then the propagation error; the CA is never
      asked to validate. */
  lemma NeverPropagated(cfg: Config, gw: Gateway)
    requires SetUpFailure(cfg, gw).None?
    ensures Run(cfg, gw, NeverFound).result == Failed(Thrown(PropagationFailedMessage))
    ensures Run(cfg, gw, NeverFound).trace == SetUpCalls(cfg, gw) + Rounds(RecordHost(cfg.domain), MaxRetries)
    ensures |Run(cfg, gw, NeverFound).trace| == 6 + 2 * MaxRetries
    ensures forall e :: e in Run(cfg, gw, NeverFound).trace ==> Rank(StepOf(e)) <= Rank(PropagationPoll)
  {
    assert !Propagated(NeverFound, gw.keyAuthorization.value);
    PropagationFailureEndsRun(cfg, gw, NeverFound);
    RoundsShape(RecordHost(cfg.domain), MaxRetries);
    RunStopsAtFirstFailure(cfg, gw, NeverFound);
  }

  /** An authorization without a dns-01 challenge: the client is asked for the
      key authorization of `undefined`, which throws before anything is shown. */
  lemma NoDns01Challenge()
    ensures Run(Operator, Accepting([Authorization("authz-1", [Http01])]), ThirdTime) ==
      RunOutcome([GenerateAccountKey, CreateAccount(true, ["mailto:ops@example.test"]),
                  CreateOrder([Identifier("dns", "example.test")]), GetAuthorizations(OrderOne),
                  GetKeyAuthorization(None)],
                 Failed(TypeError("challenge")))
  {
    assert "mailto:" + "ops@example.test" == "mailto:ops@example.test";
    assert FindDns01([Http01]) == None;
  }
}
