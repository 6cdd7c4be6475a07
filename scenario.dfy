/**
 * One account's life, on concrete values: Ana registers, a wrong code is refused, the
 * mailed code "4821" activates the account, and login succeeds with the right password
 * and fails with the wrong one.
 */
module Scenario {
  import opened Wrappers
  import opened Entities
  import opened Prisma
  import Service
  import Bcrypt

  const Ana := Service.RegisterDto("Ana", "ana@x.com", "p@ssw0rd1", "5551234567")

  /** The draw of `Math.random()` that yields the code "4821". */
  const Draw: real := 4821.0 / 9000000.0

  lemma DrawGivesCode()
    ensures 0.0 <= Draw < 1.0
    ensures Service.ActivationCode(Draw) == "4821"
  {
    assert Service.ActivationNumber(Draw) == 4821;
  }

  lemma AnaLifecycle(cfg: Config, salt: string, fill: StoreFill)
    ensures 0.0 <= Draw < 1.0
    ensures var ticket := Service.RegisterOutcome(cfg, map[], Ana, salt, Draw, 0);
            && ticket.Ok?
            && Service.ActivationOutcome(cfg, map[], Service.ActivationDto(ticket.value, "0000"), 60, fill)
               == Err(BadRequest(Service.InvalidActivationCode))
            && var created := Service.ActivationOutcome(cfg, map[], Service.ActivationDto(ticket.value, "4821"), 60, fill);
               && created.Ok? && created.value.email == "ana@x.com"
               && var users := map["ana@x.com" := created.value];
                  && Service.LoginOutcome(cfg, users, "ana@x.com", "p@ssw0rd1", 120).error.None?
                  && Service.LoginOutcome(cfg, users, "ana@x.com", "wrong", 120) == Service.LoginFailure
  {
    DrawGivesCode();
    var ticket := Service.RegisterOutcome(cfg, map[], Ana, salt, Draw, 0);
    Service.RegisterThenActivate(cfg, map[], Ana, salt, Draw, 0, map[], 60, fill);
    var created := Service.ActivationOutcome(cfg, map[], Service.ActivationDto(ticket.value, "4821"), 60, fill);
    Bcrypt.CompareHashed("p@ssw0rd1", "wrong", Bcrypt.SaltRounds, salt);
    var users := map["ana@x.com" := created.value];
    assert KeyedByEmail(users);
  }
}
