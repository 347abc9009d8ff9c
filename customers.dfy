/**
 * The customer register (`CustomerManager`): a list of customers that is only
 * ever appended to, a new-customer form, a search over name, CPF and phone, and
 * the sum of a customer's purchases.
 */
module Customers {
  import Seqs
  import Text

  datatype Address = Address(
    cep: string,
    street: string,
    neighborhood: string,
    city: string,
    state: string,
    complement: string)

  datatype Purchase = Purchase(id: int, date: string, total: real, items: string)

  /** The fields of the new-customer form. */
  datatype CustomerForm = CustomerForm(
    name: string,
    cpf: string,
    phone: string,
    email: string,
    address: Address,
    birthDate: string,
    notes: string)

  datatype Customer = Customer(
    id: int,
    name: string,
    cpf: string,
    phone: string,
    email: string,
    address: Address,
    birthDate: string,
    registerDate: string,
    status: string,
    notes: string,
    purchases: seq<Purchase>)

  const BlankAddress := Address("", "", "", "", "", "")

  const BlankForm := CustomerForm("", "", "", "", BlankAddress, "", "")

  /** The name matches case-insensitively; CPF and phone match the raw term. */
  predicate Matches(c: Customer, term: string) {
    Text.Contains(Text.Lower(c.name), Text.Lower(term))
    || Text.Contains(c.cpf, term)
    || Text.Contains(c.phone, term)
  }

  function Matcher(term: string): Customer -> bool {
    (c: Customer) => Matches(c, term)
  }

  /** `filteredCustomers`. */
  function FilteredCustomers(customers: seq<Customer>, term: string): seq<Customer> {
    Seqs.Filter(customers, Matcher(term))
  }

  /** The search keeps exactly the matching customers, in register order, and an
      empty term keeps everyone. */
  lemma FilteredCustomersSpec(customers: seq<Customer>, term: string)
    ensures forall c :: c in FilteredCustomers(customers, term) <==> c in customers && Matches(c, term)
    ensures Seqs.IsSubsequence(FilteredCustomers(customers, term), customers)
    ensures term == "" ==> FilteredCustomers(customers, term) == customers
  {
    Seqs.FilterExact(customers, Matcher(term));
    if term == "" {
      forall i | 0 <= i < |customers| ensures Matcher(term)(customers[i]) {
        Text.ContainsEmpty(Text.Lower(customers[i].name));
      }
      Seqs.FilterAll(customers, Matcher(term));
    }
  }

  function PurchaseTotal(p: Purchase): real { p.total }

  /** `getTotalPurchases`. */
  function TotalPurchases(c: Customer): real {
    Seqs.Sum(c.purchases, PurchaseTotal)
  }

  /** No purchases total 0; a further purchase adds its total; non-negative
      purchases give a non-negative total. */
  lemma TotalPurchasesSpec(c: Customer, p: Purchase)
    ensures c.purchases == [] ==> TotalPurchases(c) == 0.0
    ensures TotalPurchases(c.(purchases := c.purchases + [p])) == TotalPurchases(c) + p.total
    ensures (forall i :: 0 <= i < |c.purchases| ==> c.purchases[i].total >= 0.0) ==> TotalPurchases(c) >= 0.0
  {
    Seqs.SumConcat(c.purchases, [p], PurchaseTotal);
    Seqs.SumSingleton(p, PurchaseTotal);
    if forall i :: 0 <= i < |c.purchases| ==> c.purchases[i].total >= 0.0 {
      Seqs.SumNonNegative(c.purchases, PurchaseTotal);
    }
  }

  /** The record `handleAddCustomer` builds: the form's fields, registered on
      `today`, active and without purchases. */
  function NewCustomer(id: int, form: CustomerForm, today: string): (c: Customer)
    ensures c.id == id && c.status == "active" && c.purchases == []
    ensures c.name == form.name && c.cpf == form.cpf && c.registerDate == today
  {
    Customer(id, form.name, form.cpf, form.phone, form.email, form.address,
      form.birthDate, today, "active", form.notes, [])
  }

  function CustomerId(c: Customer): int { c.id }

  function SeedCustomers(): (r: seq<Customer>)
    ensures Seqs.PositionalIds(r, CustomerId)
  {
    [ Customer(1, "Jo\U{00E3}o Silva", "123.456.789-00", "(11) 99999-9999", "joao@email.com",
        Address("01234-567", "Rua das Flores, 123", "Centro", "S\U{00E3}o Paulo", "SP", "Apto 101"),
        "1985-06-15", "2024-01-15", "active",
        "Cliente preferencial, sempre compra produtos Apple",
        [ Purchase(1, "2024-01-20", 4200.00, "iPhone 13 Pro Max"),
          Purchase(2, "2024-01-25", 150.00, "Cabo USB-C, Capinha") ]),
      Customer(2, "Maria Santos", "987.654.321-00", "(11) 88888-8888", "maria@email.com",
        Address("04567-890", "Av. Paulista, 1000", "Bela Vista", "S\U{00E3}o Paulo", "SP", ""),
        "1990-03-22", "2024-01-10", "active", "",
        [ Purchase(3, "2024-01-18", 3800.00, "Samsung Galaxy S23") ]) ]
  }

  class CustomerManager {
    var customers: seq<Customer>
    var newCustomer: CustomerForm
    var showAddCustomer: bool

    ghost predicate Valid()
      reads this
    {
      Seqs.PositionalIds(customers, CustomerId)
    }

    constructor ()
      ensures Valid()
      ensures customers == SeedCustomers() && newCustomer == BlankForm && !showAddCustomer
    {
      customers := SeedCustomers();
      newCustomer := BlankForm;
      showAddCustomer := false;
    }

    /** "Novo Cliente" opens the form. */
    method OpenAddCustomer()
      modifies this`showAddCustomer
      ensures showAddCustomer
    {
      showAddCustomer := true;
    }

    /** An edit of the form (each input's `onChange`). */
    method EditForm(form: CustomerForm)
      modifies this`newCustomer
      ensures newCustomer == form
    {
      newCustomer := form;
    }

    /** `handleAddCustomer`: with a name and a CPF, appends the customer with the
        next id, blanks the form and closes it; otherwise does nothing. */
    method AddCustomer(today: string) returns (added: bool)
      requires Valid()
      modifies this`customers, this`newCustomer, this`showAddCustomer
      ensures Valid()
      ensures added <==> old(newCustomer).name != "" && old(newCustomer).cpf != ""
      ensures added ==>
        && customers == old(customers) + [NewCustomer(|old(customers)| + 1, old(newCustomer), today)]
        && newCustomer == BlankForm
        && !showAddCustomer
      ensures !added ==>
        customers == old(customers) && newCustomer == old(newCustomer) && showAddCustomer == old(showAddCustomer)
    {
      added := newCustomer.name != "" && newCustomer.cpf != "";
      if added {
        Seqs.PositionalIdsAppend(customers, CustomerId, NewCustomer(|customers| + 1, newCustomer, today));
        customers := customers + [NewCustomer(|customers| + 1, newCustomer, today)];
        newCustomer := BlankForm;
        showAddCustomer := false;
      }
    }
  }
}
