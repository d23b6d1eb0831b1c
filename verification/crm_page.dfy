/** The CRM page's customer cards: the customers whose name or email
    contains the search term, letter case ignored. The segment drop-down
    next to the search box is not connected to the filter. */
module CrmPage {
  import opened Text
  import opened Listing

  /** The customer fields the filter reads, and the customer's segment. */
  datatype Customer = Customer(name: string, email: string, segment: string)

  predicate Shown(customer: Customer, searchTerm: string) {
    Matches(customer.name, searchTerm) || Matches(customer.email, searchTerm)
  }

  /** `filteredCustomers`; `segment` is the drop-down's selection. */
  function FilteredCustomers(customers: seq<Customer>, searchTerm: string, segment: string): seq<Customer> {
    Filter(customers, c => Shown(c, searchTerm))
  }

  /** Exactly the customers whose lower-cased name or email contains the
      lower-cased term, in the page's order. */
  lemma FilteredCustomersExact(customers: seq<Customer>, searchTerm: string, segment: string)
    ensures var r := FilteredCustomers(customers, searchTerm, segment);
      && SubsequenceOf(r, customers)
      && (forall i :: 0 <= i < |r| ==>
            Includes(Lower(r[i].name), Lower(searchTerm)) || Includes(Lower(r[i].email), Lower(searchTerm)))
      && (forall c :: multiset(r)[c] == if Shown(c, searchTerm) then multiset(customers)[c] else 0)
  {
  }

  /** An empty search shows every customer. */
  lemma EmptySearchShowsEverything(customers: seq<Customer>, segment: string)
    ensures FilteredCustomers(customers, "", segment) == customers
  {
    forall i | 0 <= i < |customers|
      ensures Shown(customers[i], "")
    {
      EmptyTermMatches(customers[i].name);
    }
    FilterKeepsAll(customers, c => Shown(c, ""));
  }

  /** Search terms that differ only in letter case give the same cards. */
  lemma SearchIgnoresCase(customers: seq<Customer>, t1: string, t2: string, segment: string)
    requires Lower(t1) == Lower(t2)
    ensures FilteredCustomers(customers, t1, segment) == FilteredCustomers(customers, t2, segment)
  {
    FilterCongruent(customers, c => Shown(c, t1), c => Shown(c, t2));
  }

  /** The segment selection changes nothing. */
  lemma SegmentIgnored(customers: seq<Customer>, searchTerm: string, s1: string, s2: string)
    ensures FilteredCustomers(customers, searchTerm, s1) == FilteredCustomers(customers, searchTerm, s2)
  {
  }
}
