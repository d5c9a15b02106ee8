/**
 * The investigating officer's dashboard: the suspects fetched once, the count of active suspects (a
 * threat other than low), three suspects a page, and the colour of the active-count badge.
 */
module InvestigatingDashboard {
  import opened Wrappers
  import opened Text
  import opened Seqs
  import opened Paging

  const RecordsPerPage := 3

  /** A suspect as this page reads it; every field but the name may be missing. */
  datatype Suspect = Suspect(id: Option<int>, name: string, age: Option<int>, crime: Option<string>,
                             threat: Option<string>, lastSeen: Option<string>, status: Option<string>,
                             photo: Option<string>)

  /** `suspect.threat && suspect.threat.toUpperCase() !== "LOW"`. */
  predicate IsActive(s: Suspect) {
    s.threat.Some? && s.threat.value != "" && ToUpper(s.threat.value) != "LOW"
  }

  /** The number of active suspects. */
  function ActiveCount(suspects: seq<Suspect>): (n: nat)
    ensures n <= |suspects|
  {
    |Filter(suspects, IsActive)|
  }

  /** The count is zero exactly when no suspect is active, and the whole list when every one is. */
  lemma ActiveCountExtremes(suspects: seq<Suspect>)
    ensures ActiveCount(suspects) == 0 <==> forall i :: 0 <= i < |suspects| ==> !IsActive(suspects[i])
    ensures (forall i :: 0 <= i < |suspects| ==> IsActive(suspects[i])) ==> ActiveCount(suspects) == |suspects|
  {
    var r := Filter(suspects, IsActive);
    if r != [] {
      assert r[0] in suspects;
    }
    if forall i :: 0 <= i < |suspects| ==> IsActive(suspects[i]) {
      FilterKeepsAll(suspects, IsActive);
    }
  }

  /** A threat of "low" in any letter case or a missing or empty threat is not active; "High" is. */
  lemma ActiveExamples(s: Suspect)
    ensures s.threat == Some("Low") || s.threat == Some("low") || s.threat == Some("LOW") ==> !IsActive(s)
    ensures s.threat == None || s.threat == Some("") ==> !IsActive(s)
    ensures s.threat == Some("High") ==> IsActive(s)
  {
    ToUpperOfLiteral("LOW");
    EqualsIgnoreCaseIsUpperEquality("Low", "LOW");
    EqualsIgnoreCaseIsUpperEquality("low", "LOW");
  }

  /** `Math.ceil(n / 3) || 1`. */
  function TotalPages(n: nat): (r: int)
    ensures r >= 1
    ensures n == 0 ==> r == 1
    ensures n > 0 ==> (r - 1) * RecordsPerPage < n <= r * RecordsPerPage
  {
    PageCountOr1(n, RecordsPerPage)
  }

  datatype BadgeColor = Muted | Green | Yellow | Destructive

  /** `getActiveBadgeColor`: muted for none, green up to 2, yellow up to 5, destructive above. */
  function ActiveBadgeColor(count: int): (c: BadgeColor)
    ensures c == Muted <==> count == 0
    ensures c == Green <==> count != 0 && count <= 2
    ensures c == Yellow <==> 2 < count <= 5
    ensures c == Destructive <==> 5 < count
  {
    if count == 0 then Muted else if count <= 2 then Green else if count <= 5 then Yellow else Destructive
  }

  class InvestigatingPage {
    var suspects: seq<Suspect>
    var activeSuspectsCount: nat
    var currentPage: int
    var selectedSuspect: Option<Suspect>

    constructor ()
      ensures suspects == [] && activeSuspectsCount == 0 && currentPage == 1 && selectedSuspect == None
    {
      suspects, activeSuspectsCount, currentPage, selectedSuspect := [], 0, 1, None;
    }

    /** The fetch effect: the list and its active count, or no change when the request fails. */
    method FetchSuspects(outcome: Fetch<seq<Suspect>>)
      modifies this`suspects, this`activeSuspectsCount
      ensures outcome.Got? ==> suspects == outcome.value && activeSuspectsCount == ActiveCount(outcome.value)
      ensures outcome.Threw? ==> suspects == old(suspects) && activeSuspectsCount == old(activeSuspectsCount)
      ensures activeSuspectsCount <= |suspects| || activeSuspectsCount == old(activeSuspectsCount)
    {
      if outcome.Got? {
        suspects := outcome.value;
        activeSuspectsCount := |Filter(outcome.value, IsActive)|;
      }
    }

    /** The records of the current page, at most three. */
    function CurrentRecords(): (r: seq<Suspect>)
      reads this
      ensures |r| <= RecordsPerPage
    {
      PageSliceBounded(suspects, currentPage, RecordsPerPage);
      PageSlice(suspects, currentPage, RecordsPerPage)
    }

    /** "Prev", enabled only off the first page. */
    method Prev()
      requires currentPage != 1
      modifies this`currentPage
      ensures currentPage == old(currentPage) - 1
    {
      currentPage := currentPage - 1;
    }

    /** "Next", enabled only off the last page. */
    method Next()
      requires currentPage != TotalPages(|suspects|)
      modifies this`currentPage
      ensures currentPage == old(currentPage) + 1
    {
      currentPage := currentPage + 1;
    }

    /** The detail dialog's two close buttons; no control of the page ever opens it. */
    method CloseDetail()
      modifies this`selectedSuspect
      ensures selectedSuspect == None
    {
      selectedSuspect := None;
    }
  }
}
