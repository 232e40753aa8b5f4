/** The admin list of companies: a case-insensitive search over the name,
    the email and the business domain, and the message shown when nothing
    is found. */
module AdminEntreprises {
  import opened Seqs
  import opened Text

  /** One company record of the list. */
  datatype Company = Company(
    id: string, name: string, domain: string, email: string, phone: string,
    location: string, evaluations: nat, lastEvaluation: string)

  /** The records the page lists. */
  const MockCompanies: seq<Company> := [
    Company("1", "Entreprise ABC", "Services", "contact@abc.com", "+225 07 00 00 00", "Abidjan", 3, "2024-01-15"),
    Company("2", "Société XYZ", "Industrie", "info@xyz.ci", "+225 05 00 00 00", "Bouaké", 1, "2024-01-14"),
    Company("3", "Groupe Delta", "Commerce", "contact@delta.com", "+225 01 00 00 00", "Abidjan", 2, "2024-01-14"),
    Company("4", "Tech Corp", "Technologie", "hello@techcorp.ci", "+225 27 00 00 00", "Yamoussoukro", 1, "2024-01-13"),
    Company("5", "Innovate SA", "Innovation", "contact@innovate.com", "+225 07 11 11 11", "Abidjan", 4, "2024-01-13"),
    Company("6", "Global Services", "Services", "info@global.ci", "+225 05 22 22 22", "San Pedro", 1, "2024-01-12")
  ]

  /** The search test: the query occurs in the name, the email or the
      domain, ignoring case. The location and the phone are not searched. */
  predicate Found(c: Company, query: string) {
    IncludesIgnoringCase(c.name, query) ||
    IncludesIgnoringCase(c.email, query) ||
    IncludesIgnoringCase(c.domain, query)
  }

  /** `filteredCompanies`. */
  function FilterCompanies(companies: seq<Company>, query: string): (r: seq<Company>)
    ensures IsSubsequence(r, companies)
    ensures forall c :: c in r <==> c in companies && Found(c, query)
    ensures forall c :: multiset(r)[c] == if Found(c, query) then multiset(companies)[c] else 0
  {
    Filter(companies, (c: Company) => Found(c, query))
  }

  /** The "no company found" message is shown exactly when no record
      matches the query. */
  predicate NoneFound(companies: seq<Company>, query: string) {
    |FilterCompanies(companies, query)| == 0
  }

  lemma NoneFoundIff(companies: seq<Company>, query: string)
    ensures NoneFound(companies, query) <==> forall c :: c in companies ==> !Found(c, query)
  {
    var r := FilterCompanies(companies, query);
    if |r| > 0 {
      assert r[0] in r;
    }
  }

  /** An empty search shows every company. */
  lemma EmptyQueryKeepsAll(companies: seq<Company>)
    ensures FilterCompanies(companies, "") == companies
  {
    forall c | c in companies
      ensures Found(c, "")
    {
      EmptyQueryFound(c.name);
    }
    FilterAll(companies, (c: Company) => Found(c, ""));
  }

  /** Queries that differ only in letter case give the same list. */
  lemma CaseInsensitive(companies: seq<Company>, q1: string, q2: string)
    requires Lower(q1) == Lower(q2)
    ensures FilterCompanies(companies, q1) == FilterCompanies(companies, q2)
  {
    FilterCongruent(companies, (c: Company) => Found(c, q1), (c: Company) => Found(c, q2));
  }

  /** In particular a query and its lowercase form give the same list. */
  lemma LowercasedQuery(companies: seq<Company>, query: string)
    ensures FilterCompanies(companies, query) == FilterCompanies(companies, Lower(query))
  {
    LowerIdempotent(query);
    CaseInsensitive(companies, query, Lower(query));
  }
}
