/**
 * The customer-relationship screen (`CRMSystem`): a fixed customer list with
 * spending totals, a search, loyalty levels by amount spent, the summary
 * counters and the average ticket per customer.
 */
module Crm {
  import opened Wrappers
  import Seqs
  import Text
  import Numbers

  /** A customer. Dates, notes, preferences and the purchase history are not modelled. */
  datatype Customer = Customer(
    id: string,
    name: string,
    whatsapp: string,
    email: Option<string>,
    totalPurchases: int,
    totalSpent: real)

  /** The name and a present e-mail match case-insensitively, WhatsApp the raw
      term; an absent or empty e-mail is skipped (it is falsy). */
  predicate Matches(c: Customer, term: string) {
    || Text.Contains(Text.Lower(c.name), Text.Lower(term))
    || Text.Contains(c.whatsapp, term)
    || (c.email.Some? && c.email.value != "" && Text.Contains(Text.Lower(c.email.value), Text.Lower(term)))
  }

  function Matcher(term: string): Customer -> bool {
    (c: Customer) => Matches(c, term)
  }

  /** `filteredCustomers`. */
  function FilteredCustomers(customers: seq<Customer>, term: string): seq<Customer> {
    Seqs.Filter(customers, Matcher(term))
  }

  lemma FilteredCustomersSpec(customers: seq<Customer>, term: string)
    ensures forall c :: c in FilteredCustomers(customers, term) <==> c in customers && Matches(c, term)
    ensures Seqs.IsSubsequence(FilteredCustomers(customers, term), customers)
    ensures term == "" ==> FilteredCustomers(customers, term) == customers
  {
    Seqs.FilterExact(customers, Matcher(term));
    if term == "" {
      forall i | 0 <= i < |customers| ensures Matcher(term)(customers[i]) {
        Text.ContainsEmpty(Text.Lower(customers[i].name));
      }
      Seqs.FilterAll(customers, Matcher(term));
    }
  }

  datatype Level = Novo | Fiel | Premium | VIP {
    function Label(): string {
      match this
      case Novo => "Novo"
      case Fiel => "Fiel"
      case Premium => "Premium"
      case VIP => "VIP"
    }

    function Rank(): nat {
      match this
      case Novo => 0
      case Fiel => 1
      case Premium => 2
      case VIP => 3
    }

    /** The least amount spent that reaches the level. */
    function Threshold(): real {
      match this
      case Novo => 0.0
      case Fiel => 2000.0
      case Premium => 5000.0
      case VIP => 10000.0
    }
  }

  /** `getCustomerLevel`. */
  function LevelOf(totalSpent: real): Level {
    if totalSpent >= 10000.0 then VIP
    else if totalSpent >= 5000.0 then Premium
    else if totalSpent >= 2000.0 then Fiel
    else Novo
  }

  /** The level is the highest one whose threshold the amount reaches (any
      amount below 2000, negative ones included, is "Novo"), and spending more
      never lowers it. */
  lemma LevelSpec(totalSpent: real, more: real)
    ensures totalSpent >= 0.0 ==> LevelOf(totalSpent).Threshold() <= totalSpent
    ensures forall l: Level :: l.Threshold() <= totalSpent ==> l.Rank() <= LevelOf(totalSpent).Rank()
    ensures forall l: Level :: l.Rank() > LevelOf(totalSpent).Rank() ==> totalSpent < l.Threshold()
    ensures totalSpent <= more ==> LevelOf(totalSpent).Rank() <= LevelOf(more).Rank()
  {
  }

  function TotalSpent(c: Customer): real { c.totalSpent }

  /** The summary counters. The active-customer count depends on today's date
      and is not modelled. */
  datatype Stats = Stats(totalCustomers: nat, totalRevenue: real, avgTicket: Numbers.Number)

  /** `stats`: the average ticket divides by the customer count, so an empty
      list gives NaN. */
  function StatsOf(customers: seq<Customer>): Stats {
    var revenue := Seqs.Sum(customers, TotalSpent);
    Stats(|customers|, revenue, Numbers.Div(Numbers.Finite(revenue), Numbers.Finite(|customers| as real)))
  }

  /** The average ticket exists exactly for a non-empty list and, times the
      customer count, gives the revenue back. */
  lemma StatsSpec(customers: seq<Customer>)
    ensures StatsOf(customers).avgTicket.Finite? <==> customers != []
    ensures customers != [] ==>
      StatsOf(customers).avgTicket.value * (|customers| as real) == StatsOf(customers).totalRevenue
    ensures (forall i :: 0 <= i < |customers| ==> customers[i].totalSpent >= 0.0) ==>
      StatsOf(customers).totalRevenue >= 0.0
  {
    if forall i :: 0 <= i < |customers| ==> customers[i].totalSpent >= 0.0 {
      Seqs.SumNonNegative(customers, TotalSpent);
    }
  }

  /** The "Ticket médio" of one customer: the average purchase rounded to
      whole reais, NaN or Infinity without purchases. */
  function Ticket(c: Customer): Numbers.Number {
    match Numbers.Div(Numbers.Finite(c.totalSpent), Numbers.Finite(c.totalPurchases as real))
    case Finite(average) => Numbers.Finite(Numbers.Round(average) as real)
    case NotFinite => Numbers.NotFinite
  }

  /** With purchases, the ticket is a whole number within half a real of the
      exact average, so the purchases at the ticket price differ from the
      amount spent by at most half a real per purchase. */
  lemma TicketSpec(c: Customer)
    ensures Ticket(c).Finite? <==> c.totalPurchases != 0
    ensures c.totalPurchases > 0 ==>
      var t := Ticket(c).value;
      var n := c.totalPurchases as real;
      && t == t.Floor as real
      && (t - 0.5) * n <= c.totalSpent < (t + 0.5) * n
  {
    if c.totalPurchases > 0 {
      var n := c.totalPurchases as real;
      var a := c.totalSpent / n;
      var t := Ticket(c).value;
      assert t == Numbers.Round(a) as real;
      UndividedBounds(c.totalSpent, n, t);
    }
  }

  /** Bounds on a quotient give bounds on the dividend. */
  lemma UndividedBounds(x: real, n: real, t: real)
    requires n > 0.0 && t - 0.5 <= x / n < t + 0.5
    ensures (t - 0.5) * n <= x < (t + 0.5) * n
  {
    var a := x / n;
    calc {
      (t + 0.5) * n - x;
    == { assert x == a * n; }
      ((t + 0.5) - a) * n;
    > { Numbers.PositiveProduct((t + 0.5) - a, n); }
      0.0;
    }
    calc {
      x - (t - 0.5) * n;
    == { assert x == a * n; }
      (a - (t - 0.5)) * n;
    >= { Numbers.NonNegativeProduct(a - (t - 0.5), n); }
      0.0;
    }
  }

  function SeedCustomers(): seq<Customer> {
    [ Customer("1", "Jo\U{00E3}o Silva", "11999999999", Some("joao@email.com"), 3, 12600.0),
      Customer("2", "Maria Santos", "11888888888", Some("maria@email.com"), 1, 3800.0) ]
  }

  /** The seeded list: a VIP and a "Fiel" customer, 16400 in revenue, an
      average ticket of 8200 and a ticket of 4200 for the first customer. */
  lemma SeedFigures()
    ensures LevelOf(SeedCustomers()[0].totalSpent) == VIP
    ensures LevelOf(SeedCustomers()[1].totalSpent) == Fiel
    ensures StatsOf(SeedCustomers()) == Stats(2, 16400.0, Numbers.Finite(8200.0))
    ensures Ticket(SeedCustomers()[0]) == Numbers.Finite(4200.0)
  {
    var cs := SeedCustomers();
    assert cs[1..][1..] == [];
    assert Seqs.Sum(cs, TotalSpent) == 12600.0 + Seqs.Sum(cs[1..], TotalSpent);
    assert Numbers.Round(12600.0 / 3.0) == 4200;
  }
}
