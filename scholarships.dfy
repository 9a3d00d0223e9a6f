/** The scholarships page: a fixed catalogue of UK funding opportunities,
    narrowed by a case-insensitive search term and a sector. */
module Scholarships {
  import opened Prelude

  datatype Entry = Entry(
    id: string,
    name: string,
    provider: string,
    description: string,
    amount: string,
    deadline: string,
    eligibility: seq<string>,
    sector: string,
    url: string,
    kind: string)

  /** The sector choices of the filter, "all" first. */
  const SectorIds: seq<string> :=
    ["all", "technology", "healthcare", "finance", "education", "law", "arts", "science", "general"]

  /** The catalogue, in the page's order. */
  const Catalogue: seq<Entry> := [
    Entry("1", "BT Young Engineer of the Year Award", "BT Group",
          "Supporting young engineers to develop their technical skills and leadership potential",
          "\U{A3}2,000", "March 31, 2024",
          ["Engineering students", "Under 25 years", "UK residents"],
          "technology", "https://www.bt.com/bt-plc/purpose-and-sustainability/community/young-engineer-of-the-year",
          "Scholarship"),
    Entry("2", "ARM University Programme Scholarship", "ARM Holdings",
          "Supporting computer science and electrical engineering students",
          "\U{A3}3,000", "April 15, 2024",
          ["Computer Science students", "Electrical Engineering", "UK/EU students"],
          "technology", "https://www.arm.com/company/corporate-responsibility/education",
          "Scholarship"),
    Entry("3", "Dyson Engineering Undergraduate Programme", "Dyson",
          "Four-year engineering degree programme with paid placements",
          "Full tuition + \U{A3}20,000/year", "January 15, 2024",
          ["A-level students", "Engineering interest", "UK residents"],
          "technology", "https://careers.dyson.com/early-careers/apprenticeships/",
          "Bursary"),
    Entry("4", "NHS Leadership Academy Scholarship", "NHS England",
          "Leadership development for healthcare professionals",
          "\U{A3}5,000", "May 30, 2024",
          ["Healthcare students", "Leadership potential", "NHS commitment"],
          "healthcare", "https://www.leadershipacademy.nhs.uk/scholarships/",
          "Scholarship"),
    Entry("5", "Wellcome Trust PhD Studentships", "Wellcome Trust",
          "PhD funding for biomedical research students",
          "Full PhD funding", "Various deadlines",
          ["PhD applicants", "Biomedical research", "International students welcome"],
          "healthcare", "https://wellcome.org/grant-funding/schemes/four-year-phd-programmes-studentships-basic-science",
          "Grant"),
    Entry("6", "Royal College of Nursing Bursary", "Royal College of Nursing",
          "Financial support for nursing students",
          "\U{A3}1,500 - \U{A3}3,000", "September 1, 2024",
          ["Nursing students", "RCN members", "Financial need"],
          "healthcare", "https://www.rcn.org.uk/Get-Help/RCN-Foundation/Bursaries-and-scholarships",
          "Bursary"),
    Entry("7", "ACCA Scholarship Programme", "Association of Chartered Certified Accountants",
          "Supporting future accountants through their ACCA qualification",
          "Up to \U{A3}2,000", "Rolling applications",
          ["ACCA students", "Academic excellence", "Financial need"],
          "finance", "https://www.accaglobal.com/uk/en/help/scholarships-funding.html",
          "Scholarship"),
    Entry("8", "Goldman Sachs Scholarship", "Goldman Sachs",
          "Supporting underrepresented groups in finance",
          "\U{A3}3,000", "February 28, 2024",
          ["Finance/Economics students", "Underrepresented groups", "UK universities"],
          "finance", "https://www.goldmansachs.com/careers/students/programs/emea/scholarships/",
          "Scholarship"),
    Entry("9", "Chartered Institute of Management Accountants Bursary", "CIMA",
          "Financial support for management accounting students",
          "\U{A3}1,000 - \U{A3}2,500", "June 30, 2024",
          ["CIMA students", "Academic merit", "UK/Ireland residents"],
          "finance", "https://www.cimaglobal.com/About-us/CIMA-Benevolent-Fund/",
          "Bursary"),
    Entry("10", "Teacher Training Scholarship", "Department for Education",
          "Supporting trainee teachers in high-priority subjects",
          "\U{A3}24,000 - \U{A3}28,000", "September 30, 2024",
          ["PGCE students", "High-priority subjects", "2:1 degree minimum"],
          "education", "https://getintoteaching.education.gov.uk/funding-and-support/scholarships-and-bursaries",
          "Scholarship"),
    Entry("11", "Law Society Diversity Access Scheme", "The Law Society",
          "Supporting diverse talent entering the legal profession",
          "\U{A3}2,500", "April 30, 2024",
          ["Law students", "Underrepresented backgrounds", "UK residents"],
          "law", "https://www.lawsociety.org.uk/career-advice/diversity-access-scheme/",
          "Bursary"),
    Entry("12", "Gray's Inn Scholarships", "The Honourable Society of Gray's Inn",
          "Supporting aspiring barristers through their studies",
          "\U{A3}5,000 - \U{A3}15,000", "May 1, 2024",
          ["Bar students", "Academic excellence", "Financial need"],
          "law", "https://www.graysinn.org.uk/education-and-scholarship/scholarships/",
          "Scholarship"),
    Entry("13", "Arts Council England Individual Artist Grant", "Arts Council England",
          "Supporting individual artists to develop their practice",
          "\U{A3}1,000 - \U{A3}15,000", "Rolling applications",
          ["Individual artists", "England residents", "Artistic merit"],
          "arts", "https://www.artscouncil.org.uk/funding/develop-your-creative-practice",
          "Grant"),
    Entry("14", "Royal Academy of Arts Scholarship", "Royal Academy of Arts",
          "Supporting fine art students through their studies",
          "\U{A3}3,000", "March 15, 2024",
          ["Fine Art students", "RA Schools applicants", "Artistic excellence"],
          "arts", "https://www.royalacademy.org.uk/art-artists/ra-schools",
          "Scholarship"),
    Entry("15", "Royal Society Research Grant", "The Royal Society",
          "Research grants for early career scientists",
          "Up to \U{A3}20,000", "Various deadlines",
          ["Early career researchers", "Scientific research", "UK-based"],
          "science", "https://royalsociety.org/grants-schemes-awards/grants/",
          "Grant"),
    Entry("16", "Leverhulme Trust Research Project Grant", "The Leverhulme Trust",
          "Supporting original research across all disciplines",
          "Up to \U{A3}500,000", "November 10, 2024",
          ["Academic researchers", "UK institutions", "Research excellence"],
          "science", "https://www.leverhulme.ac.uk/research-project-grants",
          "Grant"),
    Entry("17", "Rhodes Scholarship", "Rhodes Trust",
          "Postgraduate study at the University of Oxford",
          "Full funding", "October 6, 2024",
          ["Undergraduate degree", "Leadership potential", "Various countries"],
          "general", "https://www.rhodeshouse.ox.ac.uk/scholarships/the-rhodes-scholarship/",
          "Scholarship"),
    Entry("18", "Gates Cambridge Scholarship", "Bill & Melinda Gates Foundation",
          "Full funding for postgraduate study at Cambridge",
          "Full funding + stipend", "December 3, 2024",
          ["International students", "Academic excellence", "Leadership commitment"],
          "general", "https://www.gatescambridge.org/",
          "Scholarship"),
    Entry("19", "Chevening Scholarships", "UK Government",
          "UK government's global scholarship programme",
          "Full funding", "November 2, 2024",
          ["International students", "Leadership potential", "UK study"],
          "general", "https://www.chevening.org/",
          "Scholarship"),
    Entry("20", "British Council GREAT Scholarships", "British Council",
          "Supporting international students to study in the UK",
          "\U{A3}10,000 minimum", "Various deadlines",
          ["International students", "Specific countries", "UK universities"],
          "general", "https://study-uk.britishcouncil.org/scholarships-funding/great-scholarships",
          "Scholarship")
  ]

  /** The search test: the lower-cased term occurs in the lower-cased name,
      provider or description. */
  predicate MatchesSearch(e: Entry, term: string)
  {
    var t := ToLower(term);
    Contains(ToLower(e.name), t) || Contains(ToLower(e.provider), t) || Contains(ToLower(e.description), t)
  }

  predicate MatchesSector(e: Entry, sector: string)
  {
    sector == "all" || e.sector == sector
  }

  predicate Keeps(e: Entry, term: string, sector: string)
  {
    MatchesSearch(e, term) && MatchesSector(e, sector)
  }

  /** `filteredScholarships`: the entries that pass both tests, in catalogue
      order; the page shows its length as the number of opportunities. */
  function Filtered(catalogue: seq<Entry>, term: string, sector: string): (r: seq<Entry>)
    ensures forall i :: 0 <= i < |r| ==> r[i] in catalogue && MatchesSearch(r[i], term) && MatchesSector(r[i], sector)
    ensures forall i :: 0 <= i < |catalogue| && Keeps(catalogue[i], term, sector) ==> catalogue[i] in r
    ensures IsSubsequence(r, catalogue)
  {
    FilterIsSubsequence(catalogue, (e: Entry) => Keeps(e, term, sector));
    Filter(catalogue, (e: Entry) => Keeps(e, term, sector))
  }

  /** The empty term with every sector keeps the whole catalogue, in order. */
  lemma EmptySearchKeepsAll(catalogue: seq<Entry>)
    ensures Filtered(catalogue, "", "all") == catalogue
  {
    assert ToLower("") == "";
    forall e: Entry ensures Keeps(e, "", "all") {
      EmptyContained(ToLower(e.name));
    }
    FilterAll(catalogue, (e: Entry) => Keeps(e, "", "all"));
  }

  /** On first render all twenty opportunities are shown. */
  lemma InitialViewShowsTwenty()
    ensures Filtered(Catalogue, "", "all") == Catalogue
    ensures |Filtered(Catalogue, "", "all")| == 20
  {
    EmptySearchKeepsAll(Catalogue);
  }

  /** The search ignores the case of the term. */
  lemma SearchIgnoresCase(catalogue: seq<Entry>, term: string, sector: string)
    ensures Filtered(catalogue, ToLower(term), sector) == Filtered(catalogue, term, sector)
  {
    ToLowerIdempotent(term);
    var p := (e: Entry) => Keeps(e, ToLower(term), sector);
    var q := (e: Entry) => Keeps(e, term, sector);
    FilterSame(catalogue, p, q);
  }

  lemma {:induction false} FilterSame<T>(s: seq<T>, p: T -> bool, q: T -> bool)
    requires forall x :: p(x) == q(x)
    ensures Filter(s, p) == Filter(s, q)
  {
    if s != [] {
      FilterSame(s[1..], p, q);
    }
  }

  /** Choosing a sector narrows the all-sectors result to the entries of that
      sector, keeping their order. */
  lemma SectorNarrowsAll(catalogue: seq<Entry>, term: string, sector: string)
    ensures Filtered(catalogue, term, sector)
         == Filter(Filtered(catalogue, term, "all"), (e: Entry) => MatchesSector(e, sector))
  {
    FilterFilter(catalogue, (e: Entry) => Keeps(e, term, "all"), (e: Entry) => MatchesSector(e, sector),
                 (e: Entry) => Keeps(e, term, sector));
  }

  /** Every catalogue entry belongs to one of the selectable sectors, so each
      appears under exactly one choice other than "all". */
  lemma CatalogueSectorsSelectable()
    ensures forall i :: 0 <= i < |Catalogue| ==> Catalogue[i].sector in SectorIds[1..]
  {
  }

  const GrayColor := "bg-gray-100 text-gray-800 dark:bg-gray-900 dark:text-gray-300"

  /** `getTypeColor`: blue, green and purple badges for the three kinds,
      gray for anything else. */
  function TypeColor(kind: string): (c: string)
    ensures c == GrayColor <==> kind !in {"Scholarship", "Bursary", "Grant"}
  {
    match kind
    case "Scholarship" => "bg-blue-100 text-blue-800 dark:bg-blue-900 dark:text-blue-300"
    case "Bursary" => "bg-green-100 text-green-800 dark:bg-green-900 dark:text-green-300"
    case "Grant" => "bg-purple-100 text-purple-800 dark:bg-purple-900 dark:text-purple-300"
    case _ => GrayColor
  }

  /** The three kinds get three different badges. */
  lemma KindsDistinct()
    ensures TypeColor("Scholarship") != TypeColor("Bursary")
    ensures TypeColor("Bursary") != TypeColor("Grant")
    ensures TypeColor("Scholarship") != TypeColor("Grant")
  {
  }

  /** No catalogue entry falls back to the gray badge. */
  lemma CatalogueNeverGray()
    ensures forall i :: 0 <= i < |Catalogue| ==> TypeColor(Catalogue[i].kind) != GrayColor
  {
  }
}
