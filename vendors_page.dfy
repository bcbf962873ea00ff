/** The client's vendor list filter: a case-insensitive search on the shop's name and
    description, and the "open only" switch. */
module VendorsPage {
  import opened Common

  /** A vendor as the list shows it. */
  datatype VendorCard = VendorCard(id: UserId, shopName: string, description: string, isOpen: bool)

  /** The search test: an empty term matches everything, otherwise the lower-cased term
      must occur in the lower-cased shop name or description. */
  predicate MatchesSearch(v: VendorCard, term: string) {
    |term| == 0 || Contains(Lower(v.shopName), Lower(term)) || Contains(Lower(v.description), Lower(term))
  }

  predicate MatchesOpen(v: VendorCard, onlyOpen: bool) {
    !onlyOpen || v.isOpen
  }

  predicate Shown(v: VendorCard, term: string, onlyOpen: bool) {
    MatchesSearch(v, term) && MatchesOpen(v, onlyOpen)
  }

  /** `filteredVendors`. */
  function FilterVendors(vendors: seq<VendorCard>, term: string, onlyOpen: bool): (r: seq<VendorCard>)
    ensures |r| <= |vendors|
  {
    if vendors == [] then []
    else
      var n := |vendors| - 1;
      var r := FilterVendors(vendors[..n], term, onlyOpen);
      if Shown(vendors[n], term, onlyOpen) then r + [vendors[n]] else r
  }

  /** A vendor is shown exactly when it is in the list and passes both tests. */
  lemma {:induction false} FilterMembers(vendors: seq<VendorCard>, term: string, onlyOpen: bool)
    ensures forall v :: v in FilterVendors(vendors, term, onlyOpen) <==> v in vendors && Shown(v, term, onlyOpen)
  {
    if vendors != [] {
      var n := |vendors| - 1;
      assert vendors == vendors[..n] + [vendors[n]];
      FilterMembers(vendors[..n], term, onlyOpen);
    }
  }

  /** The filter of a concatenation is the concatenation of the filters, so the shown
      vendors keep their order. */
  lemma {:induction false} FilterAppend(a: seq<VendorCard>, b: seq<VendorCard>, term: string, onlyOpen: bool)
    ensures FilterVendors(a + b, term, onlyOpen) == FilterVendors(a, term, onlyOpen) + FilterVendors(b, term, onlyOpen)
  {
    if b == [] {
      assert a + b == a;
    } else {
      var n := |b| - 1;
      var ab := a + b;
      assert ab[|ab| - 1] == b[n];
      assert ab[..|ab| - 1] == a + b[..n];
      FilterAppend(a, b[..n], term, onlyOpen);
    }
  }

  /** A single vendor is kept exactly when it passes both tests. */
  lemma FilterSingle(v: VendorCard, term: string, onlyOpen: bool)
    ensures FilterVendors([v], term, onlyOpen) == if Shown(v, term, onlyOpen) then [v] else []
  {
    assert [v][..0] == [];
  }

  /** An empty search hides nothing by itself; with "open only" off, nothing is hidden
      for being closed. */
  lemma EmptySearchKeepsAll(vendors: seq<VendorCard>)
    ensures FilterVendors(vendors, "", false) == vendors
  {
    if vendors != [] {
      var n := |vendors| - 1;
      EmptySearchKeepsAll(vendors[..n]);
      assert vendors[..n] + [vendors[n]] == vendors;
    }
  }

  /** With "open only" on, every shown vendor is open. */
  lemma OnlyOpenShown(vendors: seq<VendorCard>, term: string)
    ensures forall v :: v in FilterVendors(vendors, term, true) ==> v.isOpen
  {
    FilterMembers(vendors, term, true);
  }

  /** The search ignores ASCII case: a term and its lower-cased form find the same vendors. */
  lemma SearchIgnoresCase(v: VendorCard, term: string)
    ensures MatchesSearch(v, term) <==> MatchesSearch(v, Lower(term))
  {
    assert Lower(Lower(term)) == Lower(term);
  }
}
