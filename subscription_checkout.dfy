/**
 * The subscription checkout page (`pages/Checkout`): a plan chosen by URL
 * parameter, monthly or yearly billing, and a PIX payment with a 15-minute
 * countdown. The one-second interval and the simulated confirmation are
 * modelled as explicit tick and confirm events.
 */
module SubscriptionCheckout {
  import opened Wrappers
  import Numbers

  datatype Step = Summary | Payment | Success

  datatype BillingCycle = Monthly | Yearly

  datatype Plan = Plan(name: string, monthlyPrice: int, yearlyPrice: int)

  /** Seconds on the clock when a payment is generated (15 minutes). */
  const PaymentWindow := 900

  /** `plans[planId]` for the route parameter; an unknown or missing id finds nothing. */
  function PlanFor(planId: Option<string>): (r: Option<Plan>)
    ensures r.Some? <==> planId.Some? && planId.value in {"basic", "professional", "enterprise"}
  {
    match planId
    case None => None
    case Some(id) =>
      if id == "basic" then Some(Plan("Plano B\U{00E1}sico", 29, 290))
      else if id == "professional" then Some(Plan("Plano Profissional", 59, 590))
      else if id == "enterprise" then Some(Plan("Plano Empresarial", 99, 990))
      else None
  }

  function CurrentPrice(plan: Plan, cycle: BillingCycle): int {
    if cycle == Monthly then plan.monthlyPrice else plan.yearlyPrice
  }

  function Savings(plan: Plan, cycle: BillingCycle): int {
    if cycle == Yearly then plan.monthlyPrice * 12 - plan.yearlyPrice else 0
  }

  /** What is paid plus what is saved is what twelve months (or one month) cost;
      every offered plan saves exactly two monthly payments a year. */
  lemma PriceAndSavings(planId: Option<string>, cycle: BillingCycle)
    requires PlanFor(planId).Some?
    ensures var plan := PlanFor(planId).value;
      && CurrentPrice(plan, cycle) + Savings(plan, cycle)
         == (if cycle == Yearly then 12 * plan.monthlyPrice else plan.monthlyPrice)
      && (cycle == Yearly ==> Savings(plan, cycle) == 2 * plan.monthlyPrice > 0)
      && (cycle == Monthly ==> Savings(plan, cycle) == 0)
  {
  }

  /** The part of the page state the countdown drives. */
  datatype Countdown = Countdown(step: Step, remaining: int)

  /** The interval runs only while a payment is pending with time left. */
  predicate TickEnabled(c: Countdown) {
    c.step == Payment && c.remaining > 0
  }

  /** One interval firing: the last second expires the code and returns to the summary. */
  function Tick(c: Countdown): (r: Countdown)
    requires TickEnabled(c)
    ensures r.remaining == c.remaining - 1 || (c.remaining <= 1 && r.remaining == 0)
    ensures r.step == Summary <==> c.remaining <= 1
  {
    if c.remaining <= 1 then Countdown(Summary, 0) else Countdown(Payment, c.remaining - 1)
  }

  /** Up to `n` firings, stopping when the interval is cleared. */
  function Ticks(c: Countdown, n: nat): Countdown
    decreases n
  {
    if n == 0 || !TickEnabled(c) then c else Ticks(Tick(c), n - 1)
  }

  /** From `t` seconds, the code is still pending after any `k < t` firings,
      with `t - k` seconds left, and expires on the `t`-th. */
  lemma {:induction false} CountdownRuns(t: nat, k: nat)
    requires t > 0 && k <= t
    ensures k < t ==> Ticks(Countdown(Payment, t), k) == Countdown(Payment, t - k)
    ensures k == t ==> Ticks(Countdown(Payment, t), k) == Countdown(Summary, 0)
  {
    if k > 0 {
      if t == 1 {
        assert Tick(Countdown(Payment, t)) == Countdown(Summary, 0);
      } else {
        CountdownRuns(t - 1, k - 1);
      }
    }
  }

  /** A freshly generated code survives 899 firings and expires on the 900th. */
  lemma ExpiresOnLastTick()
    ensures Ticks(Countdown(Payment, PaymentWindow), PaymentWindow - 1) == Countdown(Payment, 1)
    ensures Ticks(Countdown(Payment, PaymentWindow), PaymentWindow) == Countdown(Summary, 0)
  {
    CountdownRuns(PaymentWindow, PaymentWindow - 1);
    CountdownRuns(PaymentWindow, PaymentWindow);
  }

  function TwoDigits(n: nat): string {
    Numbers.PadStart2(Numbers.NatToString(n))
  }

  /** `formatTime`: minutes and seconds, each padded to two digits. */
  function FormatTime(seconds: nat): string {
    TwoDigits(seconds / 60) + ":" + TwoDigits(seconds % 60)
  }

  /** Reads an "mm:ss" string back into seconds. */
  function ReadClock(s: string): Option<nat> {
    if |s| == 5 && s[2] == ':' && Numbers.AllDigits(s[..2]) && Numbers.AllDigits(s[3..])
    then Some(60 * Numbers.DigitsValue(s[..2]) + Numbers.DigitsValue(s[3..]))
    else None
  }

  lemma TwoDigitsSpec(n: nat)
    requires n < 100
    ensures |TwoDigits(n)| == 2 && Numbers.AllDigits(TwoDigits(n))
    ensures Numbers.DigitsValue(TwoDigits(n)) == n
  {
    var s := Numbers.NatToString(n);
    if n < 10 {
      var t := TwoDigits(n);
      assert t == ['0'] + s;
      assert t[..1] == ['0'] && t[..1][..0] == [];
      assert Numbers.DigitsValue(t[..1]) == 0;
      assert Numbers.DigitsValue(s) == n by { Numbers.DigitsValueOfNatToString(n); }
      assert s[..0] == [];
    } else {
      assert s == Numbers.NatToString(n / 10) + [Numbers.DigitChar(n % 10)];
      Numbers.DigitsValueOfNatToString(n);
    }
  }

  /** Below 100 minutes the clock has five characters and reads back as the
      number of seconds it was made from. */
  lemma FormatTimeRoundTrip(seconds: nat)
    requires seconds < 6000
    ensures |FormatTime(seconds)| == 5
    ensures ReadClock(FormatTime(seconds)) == Some(seconds)
  {
    TwoDigitsSpec(seconds / 60);
    TwoDigitsSpec(seconds % 60);
    var s := FormatTime(seconds);
    assert s[..2] == TwoDigits(seconds / 60);
    assert s[3..] == TwoDigits(seconds % 60);
  }

  class PaymentPage {
    const selectedPlan: Option<Plan>
    var billingCycle: BillingCycle
    var paymentStep: Step
    var timeRemaining: int
    /** Simulated confirmations scheduled by `generatePayment` and not yet fired. */
    var pendingConfirmations: nat

    ghost predicate Valid()
      reads this
    {
      0 <= timeRemaining <= PaymentWindow
    }

    constructor (planId: Option<string>)
      ensures Valid()
      ensures selectedPlan == PlanFor(planId)
      ensures billingCycle == Monthly && paymentStep == Summary
      ensures timeRemaining == PaymentWindow && pendingConfirmations == 0
    {
      selectedPlan := PlanFor(planId);
      billingCycle, paymentStep := Monthly, Summary;
      timeRemaining, pendingConfirmations := PaymentWindow, 0;
    }

    /** Whether the page shows "Plano não encontrado" instead of the checkout. */
    predicate NotFound()
      reads this
    {
      selectedPlan.None?
    }

    function Clock(): Countdown
      reads this
    {
      Countdown(paymentStep, timeRemaining)
    }

    method SetBillingCycle(cycle: BillingCycle)
      requires !NotFound() && paymentStep == Summary
      modifies this`billingCycle
      ensures billingCycle == cycle
    {
      billingCycle := cycle;
    }

    /** `generatePayment`, from the summary: the countdown restarts at 900 s and
        a simulated confirmation is scheduled. */
    method GeneratePayment()
      requires Valid() && !NotFound() && paymentStep == Summary
      modifies this`paymentStep, this`timeRemaining, this`pendingConfirmations
      ensures Valid()
      ensures paymentStep == Payment && timeRemaining == PaymentWindow
      ensures pendingConfirmations == old(pendingConfirmations) + 1
    {
      paymentStep, timeRemaining := Payment, PaymentWindow;
      pendingConfirmations := pendingConfirmations + 1;
    }

    /** One firing of the one-second interval; `expired` is the "Pagamento
        expirado" notice. */
    method SecondElapsed() returns (expired: bool)
      requires Valid() && TickEnabled(Clock())
      modifies this`paymentStep, this`timeRemaining
      ensures Valid()
      ensures Clock() == Tick(old(Clock()))
      ensures expired <==> old(timeRemaining) <= 1
    {
      expired := timeRemaining <= 1;
      if expired {
        paymentStep, timeRemaining := Summary, 0;
      } else {
        timeRemaining := timeRemaining - 1;
      }
    }

    /** The simulated confirmation fires: the payment succeeds. */
    method ConfirmPayment()
      requires pendingConfirmations > 0
      modifies this`paymentStep, this`pendingConfirmations
      ensures paymentStep == Success
      ensures pendingConfirmations == old(pendingConfirmations) - 1
    {
      paymentStep := Success;
      pendingConfirmations := pendingConfirmations - 1;
    }

    /** "Voltar": from the summary the page is left, otherwise it returns to
        the summary. */
    method Back() returns (leavesPage: bool)
      requires !NotFound()
      modifies this`paymentStep
      ensures leavesPage <==> old(paymentStep) == Summary
      ensures paymentStep == Summary
    {
      leavesPage := paymentStep == Summary;
      paymentStep := Summary;
    }
  }
}
