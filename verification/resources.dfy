/** The resource library of `src/app/resources/page.tsx`: a category filter
    over a fixed list. */
module Resources {
  import opened Subsequences

  datatype Resource = Resource(id: int, title: string, category: string, description: string, url: string)

  const ResourcesData: seq<Resource> := [
    Resource(1, "TEMPO Level 2 Data Products", "Dataset",
      "Official repository for TEMPO's calibrated NO2, O3, and HCHO data.", "https://earthdata.nasa.gov/"),
    Resource(2, "Panoply Data Viewer", "Tool",
      "NASA's cross-platform application for plotting geo-referenced and other data.", "https://www.giss.nasa.gov/tools/panoply/"),
    Resource(3, "The TEMPO Mission: A New Era for Air Quality", "Paper",
      "The foundational paper outlining the TEMPO mission's objectives and technology.", "https://www.spiedigitallibrary.org/"),
    Resource(4, "GEOS-Chem Model", "Tool",
      "A global 3-D chemical transport model for atmospheric composition.", "http://wiki.seas.harvard.edu/geos-chem/"),
    Resource(5, "NOAA Weather Data API", "Dataset",
      "Real-time access to weather data for integration with air quality models.", "https://www.weather.gov/documentation/services-web-api"),
    Resource(6, "Fusing Satellite and Ground Data", "Paper",
      "Methodologies for improving forecast accuracy by combining sensor types.", "https://www.sciencedirect.com/")
  ]

  /** The filter buttons. */
  const Filters: seq<string> := ["All", "Dataset", "Paper", "Tool"]

  /** The filter callback `r => r.category === activeFilter`. */
  function InCategory(category: string): Resource -> bool
  {
    (x: Resource) => x.category == category
  }

  /** `filteredResources` for the active filter button. */
  function FilteredResources(data: seq<Resource>, activeFilter: string): (r: seq<Resource>)
    ensures activeFilter == "All" ==> r == data
    ensures IsSubsequence(r, data)
    ensures activeFilter != "All" ==> forall x :: x in r ==> x.category == activeFilter
    ensures forall i :: 0 <= i < |data| && data[i].category == activeFilter ==> data[i] in r
    ensures activeFilter != "All" ==>
      forall x :: multiset(r)[x] == if x.category == activeFilter then multiset(data)[x] else 0
  {
    if activeFilter == "All" then
      SubsequenceReflexive(data);
      data
    else
      Filter(data, InCategory(activeFilter))
  }

  predicate KnownCategory(c: string)
  {
    c == "Dataset" || c == "Paper" || c == "Tool"
  }

  /** Every shipped resource is a dataset, a paper or a tool, and those are
      exactly the filter buttons besides "All". */
  lemma ShippedCategoriesKnown()
    ensures forall i :: 0 <= i < |ResourcesData| ==> KnownCategory(ResourcesData[i].category)
    ensures forall c :: KnownCategory(c) <==> c in Filters[1..]
  {
  }

  /** When every category is known, the three category views split the list:
      their sizes add up to the whole, together they hold every resource as
      often as the list does, and a resource shows in a view exactly when the
      view is its category's. */
  lemma CategoryViewsPartition(data: seq<Resource>)
    requires forall i :: 0 <= i < |data| ==> KnownCategory(data[i].category)
    ensures |FilteredResources(data, "Dataset")| + |FilteredResources(data, "Paper")| + |FilteredResources(data, "Tool")| == |data|
    ensures multiset(FilteredResources(data, "Dataset")) + multiset(FilteredResources(data, "Paper"))
      + multiset(FilteredResources(data, "Tool")) == multiset(data)
    ensures forall i, c :: 0 <= i < |data| && KnownCategory(c) ==>
      (data[i] in FilteredResources(data, c) <==> data[i].category == c)
  {
    var ds, ps, ts := FilteredResources(data, "Dataset"), FilteredResources(data, "Paper"), FilteredResources(data, "Tool");
    forall x: Resource
      ensures (multiset(ds) + multiset(ps) + multiset(ts))[x] == multiset(data)[x]
    {
      if x in data {
        var i :| 0 <= i < |data| && data[i] == x;
        assert KnownCategory(x.category);
      }
    }
    assert multiset(ds) + multiset(ps) + multiset(ts) == multiset(data);
    assert |multiset(ds)| == |ds| && |multiset(ps)| == |ps| && |multiset(ts)| == |ts|;
  }

  /** The six shipped resources split across the three category views. */
  lemma ShippedViewsPartition()
    ensures |FilteredResources(ResourcesData, "Dataset")| + |FilteredResources(ResourcesData, "Paper")|
      + |FilteredResources(ResourcesData, "Tool")| == |ResourcesData|
    ensures multiset(FilteredResources(ResourcesData, "Dataset")) + multiset(FilteredResources(ResourcesData, "Paper"))
      + multiset(FilteredResources(ResourcesData, "Tool")) == multiset(ResourcesData)
  {
    ShippedCategoriesKnown();
    CategoryViewsPartition(ResourcesData);
  }
}
