/** The listing store: a fixed list of job listings, its internship /
    non-internship partition, per-company listing counts, the
    keyword / location / job-type filter and the "featured" slices. */
module JobService {
  import opened Wrappers
  import opened Text

  datatype JobType = FullTime | PartTime | Contract | Temporary | Internship

  /** The string value each job type carries. */
  function JobTypeValue(t: JobType): string {
    match t
    case FullTime => "Full-time"
    case PartTime => "Part-time"
    case Contract => "Contract"
    case Temporary => "Temporary"
    case Internship => "Internship"
  }

  lemma JobTypeValueInjective(a: JobType, b: JobType)
    ensures JobTypeValue(a) == JobTypeValue(b) ==> a == b
  {
  }

  /** A listing. The posting date is derived from the clock; it is kept as
      the number of days before the present. */
  datatype JobListing = JobListing(
    id: string,
    title: string,
    company: string,
    companyLogo: Option<string>,
    location: string,
    jobType: JobType,
    description: string,
    postedDaysAgo: nat,
    salaryRange: Option<string>,
    skills: seq<string>)

  datatype Company = Company(id: string, name: string, logoUrl: string, activeListings: Option<nat>)

  /** The three optional filter fields of a query. */
  datatype Filters = Filters(keywords: Option<string>, location: Option<string>, jobType: Option<string>)

  const NoFilters := Filters(None, None, None)

  /** A filter field takes part only when present and non-empty: the empty
      string is falsy. */
  predicate Given(f: Option<string>) {
    f.Some? && f.value != ""
  }

  predicate KeywordMatch(job: JobListing, keywords: string) {
    var k := Lower(keywords);
    Contains(Lower(job.title), k)
    || Contains(Lower(job.company), k)
    || Contains(Lower(job.description), k)
    || exists i :: 0 <= i < |job.skills| && Contains(Lower(job.skills[i]), k)
  }

  predicate LocationMatch(job: JobListing, location: string) {
    Contains(Lower(job.location), Lower(location))
  }

  predicate Matches(job: JobListing, f: Filters) {
    (!Given(f.keywords) || KeywordMatch(job, f.keywords.value))
    && (!Given(f.location) || LocationMatch(job, f.location.value))
    && (!Given(f.jobType) || JobTypeValue(job.jobType) == f.jobType.value)
  }

  /** `b` keeps some of the elements of `a`, in their original order. */
  ghost predicate IsSubsequence<T>(b: seq<T>, a: seq<T>)
    decreases |a|
  {
    b == [] || (a != [] && ((b[0] == a[0] && IsSubsequence(b[1..], a[1..])) || IsSubsequence(b, a[1..])))
  }

  /** `filterListings`: the listings that pass all three tests, in order. */
  function FilterListings(listings: seq<JobListing>, f: Filters): (r: seq<JobListing>)
    ensures |r| <= |listings|
    ensures forall j :: j in r <==> j in listings && Matches(j, f)
  {
    if listings == [] then []
    else (if Matches(listings[0], f) then [listings[0]] else []) + FilterListings(listings[1..], f)
  }

  lemma {:induction false} FilterIsSubsequence(listings: seq<JobListing>, f: Filters)
    ensures IsSubsequence(FilterListings(listings, f), listings)
  {
    if listings != [] {
      FilterIsSubsequence(listings[1..], f);
      var rest := FilterListings(listings[1..], f);
      if Matches(listings[0], f) {
        assert FilterListings(listings, f) == [listings[0]] + rest;
        assert ([listings[0]] + rest)[1..] == rest;
      } else {
        assert FilterListings(listings, f) == rest;
      }
    }
  }

  /** With every filter absent or empty, the listing passes through unchanged. */
  lemma {:induction false} FilterWithoutFilters(listings: seq<JobListing>, f: Filters)
    requires !Given(f.keywords) && !Given(f.location) && !Given(f.jobType)
    ensures FilterListings(listings, f) == listings
  {
    if listings != [] {
      FilterWithoutFilters(listings[1..], f);
      assert [listings[0]] + listings[1..] == listings;
    }
  }

  lemma {:induction false} FilterConcat(a: seq<JobListing>, b: seq<JobListing>, f: Filters)
    ensures FilterListings(a + b, f) == FilterListings(a, f) + FilterListings(b, f)
  {
    if a == [] {
      assert a + b == b;
    } else {
      assert (a + b)[1..] == a[1..] + b;
      FilterConcat(a[1..], b, f);
    }
  }

  lemma {:induction false} FilterIdempotent(listings: seq<JobListing>, f: Filters)
    ensures FilterListings(FilterListings(listings, f), f) == FilterListings(listings, f)
  {
    if listings != [] {
      var head := if Matches(listings[0], f) then [listings[0]] else [];
      FilterConcat(head, FilterListings(listings[1..], f), f);
      FilterIdempotent(listings[1..], f);
    }
  }

  /** Filter `g` is at least as narrow as `f`: every field `f` sets, `g`
      sets too, to a keyword / location containing `f`'s (ignoring ASCII
      case) or to the same job type. */
  predicate Narrows(g: Filters, f: Filters) {
    (Given(f.keywords) ==> Given(g.keywords) && Contains(Lower(g.keywords.value), Lower(f.keywords.value)))
    && (Given(f.location) ==> Given(g.location) && Contains(Lower(g.location.value), Lower(f.location.value)))
    && (Given(f.jobType) ==> g.jobType == f.jobType)
  }

  lemma NarrowedMatch(job: JobListing, g: Filters, f: Filters)
    requires Narrows(g, f) && Matches(job, g)
    ensures Matches(job, f)
  {
    if Given(f.keywords) {
      var kg, kf := Lower(g.keywords.value), Lower(f.keywords.value);
      if Contains(Lower(job.title), kg) {
        ContainsTransitive(Lower(job.title), kg, kf);
      } else if Contains(Lower(job.company), kg) {
        ContainsTransitive(Lower(job.company), kg, kf);
      } else if Contains(Lower(job.description), kg) {
        ContainsTransitive(Lower(job.description), kg, kf);
      } else {
        var i :| 0 <= i < |job.skills| && Contains(Lower(job.skills[i]), kg);
        ContainsTransitive(Lower(job.skills[i]), kg, kf);
      }
    }
    if Given(f.location) {
      ContainsTransitive(Lower(job.location), Lower(g.location.value), Lower(f.location.value));
    }
  }

  /** Adding or narrowing a filter never enlarges the result: the narrower
      result is a subsequence of the wider one. */
  lemma {:induction false} FilterNarrowing(listings: seq<JobListing>, g: Filters, f: Filters)
    requires Narrows(g, f)
    ensures IsSubsequence(FilterListings(listings, g), FilterListings(listings, f))
  {
    if listings != [] {
      FilterNarrowing(listings[1..], g, f);
      var j := listings[0];
      if Matches(j, g) {
        NarrowedMatch(j, g, f);
        assert FilterListings(listings, g) == [j] + FilterListings(listings[1..], g);
        assert FilterListings(listings, f) == [j] + FilterListings(listings[1..], f);
      } else if Matches(j, f) {
        assert FilterListings(listings, g) == FilterListings(listings[1..], g);
        assert FilterListings(listings, f) == [j] + FilterListings(listings[1..], f);
      } else {
        assert FilterListings(listings, g) == FilterListings(listings[1..], g);
        assert FilterListings(listings, f) == FilterListings(listings[1..], f);
      }
    }
  }

  /** Keyword and location tests ignore ASCII case in the filter text. */
  lemma FilterCaseInsensitive(listings: seq<JobListing>, f: Filters, g: Filters)
    requires f.jobType == g.jobType
    requires f.keywords.Some? == g.keywords.Some? && f.location.Some? == g.location.Some?
    requires f.keywords.Some? ==> Lower(f.keywords.value) == Lower(g.keywords.value)
    requires f.location.Some? ==> Lower(f.location.value) == Lower(g.location.value)
    ensures FilterListings(listings, f) == FilterListings(listings, g)
  {
    assert forall j :: Matches(j, f) == Matches(j, g);
    FilterSameTest(listings, f, g);
  }

  lemma {:induction false} FilterSameTest(listings: seq<JobListing>, f: Filters, g: Filters)
    requires forall j :: Matches(j, f) == Matches(j, g)
    ensures FilterListings(listings, f) == FilterListings(listings, g)
  {
    if listings != [] {
      FilterSameTest(listings[1..], f, g);
    }
  }

  // ---------------------------------------------------------------- the mock data

  const Job1 := JobListing("1", "Senior Frontend Engineer", "Innovatech Solutions",
      Some("https://picsum.photos/seed/innovatech/100/100"), "San Francisco, CA", FullTime,
      "Join our dynamic team to build cutting-edge web applications using React, TypeScript, and GraphQL. Lead frontend development efforts and mentor junior engineers.",
      2, Some("$150,000 - $180,000"),
      ["React", "TypeScript", "GraphQL", "Node.js", "TailwindCSS", "Jest"])

  const Job2 := JobListing("2", "Product Marketing Manager", "MarketPro Inc.",
      Some("https://picsum.photos/seed/marketpro/100/100"), "New York, NY", FullTime,
      "Develop and execute marketing strategies for new product launches. Conduct market research and collaborate with sales and product teams.",
      5, None,
      ["Marketing Strategy", "Product Launch", "Market Research", "SEO", "Content Marketing"])

  const Job3 := JobListing("3", "UX/UI Designer (Contract)", "Creative Visions Agency",
      Some("https://picsum.photos/seed/creativevisions/100/100"), "Remote", Contract,
      "Design intuitive and visually appealing user interfaces for web and mobile applications. Create wireframes, prototypes, and high-fidelity mockups.",
      1, Some("$70 - $90 / hour"),
      ["UX Design", "UI Design", "Figma", "Adobe XD", "Prototyping", "User Research"])

  const Job4 := JobListing("4", "Data Science Intern", "DataDriven Corp",
      Some("https://picsum.photos/seed/datadriven/100/100"), "Austin, TX", Internship,
      "Work on real-world data science projects, including data cleaning, analysis, and model building. Learn from experienced data scientists.",
      7, None,
      ["Python", "R", "SQL", "Machine Learning", "Data Analysis", "Statistics"])

  const Job5 := JobListing("5", "Backend Developer (Python/Django)", "ScaleFast Ltd.",
      Some("https://picsum.photos/seed/scalefast/100/100"), "Remote", FullTime,
      "Design, develop, and maintain scalable backend services and APIs using Python and Django. Work with databases and cloud infrastructure.",
      3, Some("$120,000 - $150,000"),
      ["Python", "Django", "REST APIs", "PostgreSQL", "AWS", "Docker"])

  const Job6 := JobListing("6", "Marketing Intern", "GrowthHackers Co.",
      Some("httpsum.photos/seed/growthhackers/100/100"), "Boston, MA (Hybrid)", Internship,
      "Assist the marketing team with social media campaigns, content creation, and market analysis. Gain hands-on experience in digital marketing.",
      4, None,
      ["Social Media Marketing", "Content Creation", "Google Analytics", "SEO Basics"])

  const MockJobs: seq<JobListing> := [Job1, Job2, Job3, Job4, Job5, Job6]

  /** The listings of one side of the internship partition, in order. */
  function SelectInternships(listings: seq<JobListing>, internships: bool): (r: seq<JobListing>)
    ensures |r| <= |listings|
  {
    if listings == [] then []
    else
      var head := if (listings[0].jobType == Internship) == internships then [listings[0]] else [];
      head + SelectInternships(listings[1..], internships)
  }

  /** A listing is on the requested side exactly when it is in the input
      and its type says so. */
  lemma {:induction false} SelectMembers(listings: seq<JobListing>, internships: bool, j: JobListing)
    ensures j in SelectInternships(listings, internships) <==> j in listings && (j.jobType == Internship) == internships
  {
    if listings != [] {
      SelectMembers(listings[1..], internships, j);
      assert listings == [listings[0]] + listings[1..];
    }
  }

  /** The two sides together hold every listing exactly as often as the input. */
  lemma {:induction false} InternshipPartition(listings: seq<JobListing>)
    ensures multiset(SelectInternships(listings, true)) + multiset(SelectInternships(listings, false))
         == multiset(listings)
  {
    if listings != [] {
      var x, rest := listings[0], listings[1..];
      InternshipPartition(rest);
      var inSide := if x.jobType == Internship then [x] else [];
      var outSide := if x.jobType == Internship then [] else [x];
      assert SelectInternships(listings, true) == inSide + SelectInternships(rest, true);
      assert SelectInternships(listings, false) == outSide + SelectInternships(rest, false);
      assert multiset(inSide) + multiset(outSide) == multiset([x]);
      assert listings == [x] + rest;
    }
  }

  const MockInternships := SelectInternships(MockJobs, true)
  const MockNonInternships := SelectInternships(MockJobs, false)

  lemma MockInternshipsValue()
    ensures MockInternships == [Job4, Job6]
  {
    assert SelectInternships([Job6], true) == [Job6];
    assert [Job5, Job6][1..] == [Job6];
    assert SelectInternships([Job5, Job6], true) == [Job6];
    assert [Job4, Job5, Job6][1..] == [Job5, Job6];
    assert [Job4] + [Job6] == [Job4, Job6];
    assert SelectInternships([Job4, Job5, Job6], true) == [Job4, Job6];
    assert [Job3, Job4, Job5, Job6][1..] == [Job4, Job5, Job6];
    assert SelectInternships([Job3, Job4, Job5, Job6], true) == [Job4, Job6];
    assert [Job2, Job3, Job4, Job5, Job6][1..] == [Job3, Job4, Job5, Job6];
    assert SelectInternships([Job2, Job3, Job4, Job5, Job6], true) == [Job4, Job6];
    assert [Job1, Job2, Job3, Job4, Job5, Job6][1..] == [Job2, Job3, Job4, Job5, Job6];
    assert SelectInternships([Job1, Job2, Job3, Job4, Job5, Job6], true) == [Job4, Job6];
  }

  lemma NonInternshipsTail()
    ensures SelectInternships([Job3, Job4, Job5, Job6], false) == [Job3, Job5]
  {
    assert SelectInternships([Job6], false) == [];
    assert [Job5, Job6][1..] == [Job6];
    assert SelectInternships([Job5, Job6], false) == [Job5];
    assert [Job4, Job5, Job6][1..] == [Job5, Job6];
    assert SelectInternships([Job4, Job5, Job6], false) == [Job5];
    assert [Job3, Job4, Job5, Job6][1..] == [Job4, Job5, Job6];
    assert [Job3] + [Job5] == [Job3, Job5];
  }

  lemma NonInternshipsTail2()
    ensures SelectInternships([Job2, Job3, Job4, Job5, Job6], false) == [Job2, Job3, Job5]
  {
    NonInternshipsTail();
    assert [Job2, Job3, Job4, Job5, Job6][1..] == [Job3, Job4, Job5, Job6];
    assert [Job2] + [Job3, Job5] == [Job2, Job3, Job5];
  }

  lemma MockNonInternshipsValue()
    ensures MockNonInternships == [Job1, Job2, Job3, Job5]
  {
    NonInternshipsTail2();
    assert MockJobs[1..] == [Job2, Job3, Job4, Job5, Job6];
    assert [Job1] + [Job2, Job3, Job5] == [Job1, Job2, Job3, Job5];
  }

  /** The company names of a list of listings, in order. */
  function CompanyNames(listings: seq<JobListing>): (r: seq<string>)
    ensures |r| == |listings|
  {
    if listings == [] then [] else [listings[0].company] + CompanyNames(listings[1..])
  }

  /** `listings.filter(j => j.company === name).length`. */
  function CountByCompany(listings: seq<JobListing>, name: string): nat {
    if listings == [] then 0
    else (if listings[0].company == name then 1 else 0) + CountByCompany(listings[1..], name)
  }

  lemma {:induction false} CountByCompanyIsMultiplicity(listings: seq<JobListing>, name: string)
    ensures CountByCompany(listings, name) == multiset(CompanyNames(listings))[name]
  {
    if listings != [] {
      CountByCompanyIsMultiplicity(listings[1..], name);
    }
  }

  function MockCompany(id: string, name: string, logoUrl: string): Company {
    Company(id, name, logoUrl, Some(CountByCompany(MockJobs, name)))
  }

  const MockCompanies: seq<Company> := [
    MockCompany("c1", "Innovatech Solutions", "https://picsum.photos/seed/innovatech/100/100"),
    MockCompany("c2", "MarketPro Inc.", "https://picsum.photos/seed/marketpro/100/100"),
    MockCompany("c3", "Creative Visions Agency", "https://picsum.photos/seed/creativevisions/100/100"),
    MockCompany("c4", "DataDriven Corp", "https://picsum.photos/seed/datadriven/100/100"),
    MockCompany("c5", "ScaleFast Ltd.", "https://picsum.photos/seed/scalefast/100/100")
  ]

  /** Each listed company is credited with the number of listings naming it
      exactly. */
  lemma MockCompanyCounts()
    ensures forall c :: c in MockCompanies ==>
      c.activeListings == Some(multiset(CompanyNames(MockJobs))[c.name])
  {
    forall c | c in MockCompanies
      ensures c.activeListings == Some(multiset(CompanyNames(MockJobs))[c.name])
    {
      CountByCompanyIsMultiplicity(MockJobs, c.name);
    }
  }

  // ---------------------------------------------------------------- queries

  /** `getJobs`: the non-internship listings that pass the filters. */
  function GetJobs(f: Filters): (r: seq<JobListing>)
    ensures forall j :: j in r ==> j.jobType != Internship && j in MockJobs && Matches(j, f)
  {
    var r := FilterListings(MockNonInternships, f);
    forall j | j in r ensures j.jobType != Internship && j in MockJobs {
      SelectMembers(MockJobs, false, j);
    }
    r
  }

  /** `getInternships`: the internship listings that pass the filters. */
  function GetInternships(f: Filters): (r: seq<JobListing>)
    ensures forall j :: j in r ==> j.jobType == Internship && j in MockJobs && Matches(j, f)
  {
    var r := FilterListings(MockInternships, f);
    forall j | j in r ensures j.jobType == Internship && j in MockJobs {
      SelectMembers(MockJobs, true, j);
    }
    r
  }

  /** `getAllListings`. */
  function GetAllListings(f: Filters): seq<JobListing> {
    FilterListings(MockJobs, f)
  }

  /** Jobs and internships together are exactly all matching listings. */
  lemma QueriesPartitionAllListings(f: Filters)
    ensures multiset(GetJobs(f)) + multiset(GetInternships(f)) == multiset(GetAllListings(f))
  {
    var all := GetAllListings(f);
    InternshipPartition(all);
    SelectAfterFilter(MockJobs, f, true);
    SelectAfterFilter(MockJobs, f, false);
  }

  /** Filtering and selecting one side of the partition commute. */
  lemma {:induction false} SelectAfterFilter(listings: seq<JobListing>, f: Filters, internships: bool)
    ensures SelectInternships(FilterListings(listings, f), internships)
         == FilterListings(SelectInternships(listings, internships), f)
  {
    if listings != [] {
      SelectAfterFilter(listings[1..], f, internships);
      var j := listings[0];
      var head := if Matches(j, f) then [j] else [];
      SelectConcat(head, FilterListings(listings[1..], f), internships);
      var side := if (j.jobType == Internship) == internships then [j] else [];
      FilterConcat(side, SelectInternships(listings[1..], internships), f);
    }
  }

  lemma {:induction false} SelectConcat(a: seq<JobListing>, b: seq<JobListing>, internships: bool)
    ensures SelectInternships(a + b, internships) == SelectInternships(a, internships) + SelectInternships(b, internships)
  {
    if a == [] {
      assert a + b == b;
    } else {
      assert (a + b)[1..] == a[1..] + b;
      SelectConcat(a[1..], b, internships);
    }
  }

  /** `list.slice(0, limit)` for an integral `limit`: a negative end counts
      from the back. */
  function SliceFront<T>(list: seq<T>, limit: int): (r: seq<T>)
    ensures |r| <= |list| && r == list[..|r|]
    ensures 0 <= limit ==> |r| == if limit < |list| then limit else |list|
    ensures limit < 0 ==> |r| == if |list| + limit < 0 then 0 else |list| + limit
  {
    var end := if limit < 0 then (if |list| + limit < 0 then 0 else |list| + limit)
               else if limit < |list| then limit else |list|;
    list[..end]
  }

  const DefaultFeaturedJobs := 3
  const DefaultFeaturedInternships := 2
  const DefaultFeaturedCompanies := 4

  function GetFeaturedJobs(limit: int): seq<JobListing> {
    SliceFront(MockNonInternships, limit)
  }

  function GetFeaturedInternships(limit: int): seq<JobListing> {
    SliceFront(MockInternships, limit)
  }

  function GetFeaturedCompanies(limit: int): seq<Company> {
    SliceFront(MockCompanies, limit)
  }

  /** With the default limits the home page shows three jobs, two
      internships and four companies, each the first of its list. */
  lemma FeaturedDefaults()
    ensures GetFeaturedJobs(DefaultFeaturedJobs) == [Job1, Job2, Job3]
    ensures GetFeaturedInternships(DefaultFeaturedInternships) == [Job4, Job6]
    ensures GetFeaturedCompanies(DefaultFeaturedCompanies) == MockCompanies[..4]
    ensures forall j :: j in GetFeaturedInternships(DefaultFeaturedInternships) ==> j.jobType == Internship
  {
    MockInternshipsValue();
    MockNonInternshipsValue();
  }
}
