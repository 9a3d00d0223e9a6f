/** The news page: a fixed list of articles, filtered by industry, a
    trending strip, and a Back button that remembers across visits whether
    the page was opened from the investments page. */
module News {
  import opened Prelude
  import opened Navigation

  datatype Article = Article(
    id: string,
    title: string,
    description: string,
    source: string,
    publishedAt: string,
    industry: string,
    readTime: string,
    trending: bool,
    url: string)

  datatype Industry = Industry(id: string, name: string)

  /** The industry tabs, "all" first. */
  const Industries: seq<Industry> := [
    Industry("all", "All Industries"), Industry("technology", "Technology"), Industry("finance", "Finance"),
    Industry("healthcare", "Healthcare"), Industry("law", "Law"), Industry("defence", "Defence"),
    Industry("engineering", "Engineering"), Industry("automotive", "Automotive"), Industry("insurance", "Insurance")]

  const Articles: seq<Article> := [
    Article("1", "AI Revolution Reshapes Software Development Industry",
            "Latest developments in artificial intelligence are transforming how software is built and deployed across major tech companies.",
            "TechCrunch", "2024-01-15", "technology", "5 min", true, "https://techcrunch.com/2024/01/15/ai-development-trends/"),
    Article("2", "Central Bank Interest Rate Decisions Impact Global Markets",
            "Federal Reserve's latest monetary policy changes send ripples through international financial markets.",
            "Financial Times", "2024-01-14", "finance", "3 min", true, "https://www.ft.com/markets"),
    Article("3", "Breakthrough in Cancer Treatment Shows Promising Results",
            "New immunotherapy approach demonstrates significant success rates in clinical trials for multiple cancer types.",
            "Nature Medicine", "2024-01-13", "healthcare", "7 min", false, "https://www.nature.com/nm/"),
    Article("4", "New Data Protection Regulations Impact Tech Giants",
            "European Union implements stricter privacy laws affecting how technology companies handle user data.",
            "Legal Tech News", "2024-01-12", "law", "4 min", false, "https://www.law.com/legaltechnews/"),
    Article("5", "Defense Contractors Develop Next-Gen Cybersecurity Solutions",
            "Military technology firms partner to create advanced threat detection systems for national security.",
            "Defense Weekly", "2024-01-11", "defence", "6 min", true, "https://www.defensenews.com/"),
    Article("6", "Sustainable Engineering Practices Gain Momentum",
            "Construction and manufacturing industries adopt eco-friendly approaches to reduce environmental impact.",
            "Engineering Today", "2024-01-10", "engineering", "5 min", false, "https://www.engineeringnews.co.uk/"),
    Article("7", "Electric Vehicle Market Sees Record Growth",
            "Automotive industry reports unprecedented demand for electric vehicles across global markets.",
            "Auto Industry Report", "2024-01-09", "automotive", "4 min", true, "https://www.automotiveworld.com/"),
    Article("8", "Insurance Industry Adapts to Climate Change Risks",
            "Major insurers develop new models to assess and price climate-related risks for businesses and individuals.",
            "Insurance Journal", "2024-01-08", "insurance", "6 min", false, "https://www.insurancejournal.com/")
  ]

  /** `filteredArticles`: every article for "all", otherwise exactly the
      articles of the selected industry, in list order. */
  function FilteredArticles(articles: seq<Article>, selected: string): (r: seq<Article>)
    ensures selected == "all" ==> r == articles
    ensures forall i :: 0 <= i < |r| ==> r[i] in articles && (selected == "all" || r[i].industry == selected)
    ensures forall i :: 0 <= i < |articles| && articles[i].industry == selected ==> articles[i] in r
    ensures IsSubsequence(r, articles)
  {
    if selected == "all" then
      SubsequenceRefl(articles);
      articles
    else
      FilterIsSubsequence(articles, (a: Article) => a.industry == selected);
      Filter(articles, (a: Article) => a.industry == selected)
  }

  lemma {:induction false} SubsequenceRefl<T>(s: seq<T>)
    ensures IsSubsequence(s, s)
  {
    if s != [] {
      SubsequenceRefl(s[1..]);
    }
  }

  /** `trendingArticles`: exactly the articles marked trending, in order. */
  function TrendingArticles(articles: seq<Article>): (r: seq<Article>)
    ensures forall i :: 0 <= i < |r| ==> r[i] in articles && r[i].trending
    ensures forall i :: 0 <= i < |articles| && articles[i].trending ==> articles[i] in r
    ensures IsSubsequence(r, articles)
  {
    FilterIsSubsequence(articles, (a: Article) => a.trending);
    Filter(articles, (a: Article) => a.trending)
  }

  /** The list heading: "All Articles", or the tab's name; a selection with
      no tab reads "undefined Articles", as the template literal prints it. */
  function Heading(selected: string): (h: string)
    ensures selected == "all" ==> h == "All Articles"
    ensures selected != "all" && (exists i :: 0 <= i < |Industries| && Industries[i].id == selected) ==>
      h == FindName(Industries, selected).value + " Articles"
  {
    if selected == "all" then "All Articles"
    else match FindName(Industries, selected)
      case Some(name) => name + " Articles"
      case None => "undefined Articles"
  }

  /** `industries.find(i => i.id === id)?.name`. */
  function FindName(industries: seq<Industry>, id: string): (r: Option<string>)
    ensures r.Some? <==> exists i :: 0 <= i < |industries| && industries[i].id == id
    ensures r.Some? ==> exists i :: 0 <= i < |industries| && industries[i].id == id && industries[i].name == r.value
  {
    if industries == [] then None
    else if industries[0].id == id then Some(industries[0].name)
    else
      var r := FindName(industries[1..], id);
      if r.Some? then
        var i :| 0 <= i < |industries[1..]| && industries[1..][i].id == id && industries[1..][i].name == r.value;
        assert industries[i + 1].id == id && industries[i + 1].name == r.value;
        r
      else r
  }

  /** Where Back leads, from what the page stored in `newsReturnPath` and
      `investmentPageData`: to the investments page with the saved data
      only when the stored path says so and the data is there; home in
      every other case, a missing or empty path included. */
  function BackRoute(returnPath: Option<string>, investmentData: Option<InvestmentState>): (r: Route)
    ensures r.InvestmentsPage? <==> returnPath == Some("/investments") && investmentData.Some?
    ensures r.InvestmentsPage? ==> r.state == investmentData.value
  {
    var path := OrElse(if returnPath.Some? then returnPath.value else "", "/");
    if path == "/investments" then
      if investmentData.Some? then InvestmentsPage(investmentData.value) else Home
    else Home
  }

  /** Where the page was opened from, as the router state tells it. */
  datatype Arrival = FromInvestments(data: InvestmentState) | FromHome | Elsewhere

  class Page {
    var selectedIndustry: string
    /** `localStorage.newsReturnPath`. */
    var returnPath: Option<string>
    /** `localStorage.investmentPageData`. */
    var investmentData: Option<InvestmentState>

    /** Mounting: the "all" tab, and the store effect: arriving from the
        investments page records that path and its data, arriving from home
        records "/", anything else leaves storage as it was. */
    constructor(arrival: Arrival, returnPath: Option<string>, investmentData: Option<InvestmentState>)
      ensures selectedIndustry == "all"
      ensures arrival.FromInvestments? ==> this.returnPath == Some("/investments") && this.investmentData == Some(arrival.data)
      ensures arrival.FromHome? ==> this.returnPath == Some("/") && this.investmentData == investmentData
      ensures arrival.Elsewhere? ==> this.returnPath == returnPath && this.investmentData == investmentData
    {
      selectedIndustry := "all";
      match arrival
      case FromInvestments(data) =>
        this.returnPath := Some("/investments");
        this.investmentData := Some(data);
      case FromHome =>
        this.returnPath := Some("/");
        this.investmentData := investmentData;
      case Elsewhere =>
        this.returnPath := returnPath;
        this.investmentData := investmentData;
    }

    method SelectIndustry(id: string)
      modifies this
      ensures selectedIndustry == id && returnPath == old(returnPath) && investmentData == old(investmentData)
    {
      selectedIndustry := id;
    }

    /** `handleBack`. */
    method HandleBack() returns (r: Route)
      ensures r == BackRoute(returnPath, investmentData)
    {
      var path := if returnPath.Some? && returnPath.value != "" then returnPath.value else "/";
      if path == "/investments" {
        if investmentData.Some? {
          r := InvestmentsPage(investmentData.value);
        } else {
          r := Home;
        }
      } else {
        r := Home;
      }
    }
  }

  /** Arriving from the investments page always leads back there. */
  lemma BackAfterInvestments(data: InvestmentState)
    ensures BackRoute(Some("/investments"), Some(data)) == InvestmentsPage(data)
  {
  }

  /** Arriving from home always leads back home, whatever data is stored. */
  lemma BackAfterHome(investmentData: Option<InvestmentState>)
    ensures BackRoute(Some("/"), investmentData) == Home
  {
  }
}
