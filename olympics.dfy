/**
 * The Olympic data service (src/app/core/services/olympic.service.ts): the
 * three-state data holder, its load transitions, and the per-country medal
 * totals derived from it.
 */
module Olympics {
  import opened Models

  /** The holder's three states: `undefined`, `null` and a loaded list. */
  datatype Holder = NotLoaded | LoadFailed | Loaded(list: seq<OlympicCountry>)

  /** What the HTTP request for the dataset delivers. */
  datatype FetchResult = Fetched(list: seq<OlympicCountry>) | FetchFailed

  /** The two parallel sequences the service hands to the home page. */
  datatype MedalTotals = MedalTotals(countryNames: seq<string>, countryTotalMedals: seq<int>)

  /** `participation.medalsCount ?? 0` */
  function MedalsOrZero(p: Participation): int
  {
    match p.medalsCount
    case Some(m) => m
    case None => 0
  }

  /** The `reduce` over a country's participations: a left fold from 0. */
  function TotalMedals(ps: seq<Participation>): int
  {
    if ps == [] then 0 else TotalMedals(ps[..|ps| - 1]) + MedalsOrZero(ps[|ps| - 1])
  }

  predicate NonNegativeCounts(ps: seq<Participation>)
  {
    forall i :: 0 <= i < |ps| ==> MedalsOrZero(ps[i]) >= 0
  }

  /** A country with no participations has a total of 0. */
  lemma TotalMedalsEmpty()
    ensures TotalMedals([]) == 0
  {
  }

  /** The per-country total is additive over concatenation. */
  lemma {:induction false} TotalMedalsAppend(a: seq<Participation>, b: seq<Participation>)
    ensures TotalMedals(a + b) == TotalMedals(a) + TotalMedals(b)
    decreases |b|
  {
    if b == [] {
      assert a + b == a;
    } else {
      var b' := b[..|b| - 1];
      assert (a + b)[..|a + b| - 1] == a + b';
      TotalMedalsAppend(a, b');
    }
  }

  /** A total is the first count plus the total of the rest. */
  lemma TotalMedalsCons(p: Participation, ps: seq<Participation>)
    ensures TotalMedals([p] + ps) == MedalsOrZero(p) + TotalMedals(ps)
  {
    TotalMedalsAppend([p], ps);
    assert [p][..0] == [];
  }

  /** When no present count is negative, neither is the total. */
  lemma {:induction false} TotalMedalsNonNegative(ps: seq<Participation>)
    requires NonNegativeCounts(ps)
    ensures TotalMedals(ps) >= 0
    decreases |ps|
  {
    if ps != [] {
      TotalMedalsNonNegative(ps[..|ps| - 1]);
      assert MedalsOrZero(ps[|ps| - 1]) >= 0;
    }
  }

  /**
   * What the loop in the `map` body builds from a loaded list: one name and
   * one total pushed per country, in list order.
   */
  function MedalsByCountryOf(list: seq<OlympicCountry>): MedalTotals
  {
    if list == [] then MedalTotals([], [])
    else
      var prev := MedalsByCountryOf(list[..|list| - 1]);
      var last := list[|list| - 1];
      MedalTotals(prev.countryNames + [last.country],
                  prev.countryTotalMedals + [TotalMedals(last.participations)])
  }

  /** The `map` body: no data (`undefined` or `null`) gives two empty sequences. */
  function MedalsByCountry(h: Holder): MedalTotals
  {
    match h
    case Loaded(list) => MedalsByCountryOf(list)
    case _ => MedalTotals([], [])
  }

  /** Both sequences have one entry per country, in order, holding its name and total. */
  lemma {:induction false} MedalsByCountryOfAt(list: seq<OlympicCountry>)
    ensures |MedalsByCountryOf(list).countryNames| == |list|
    ensures |MedalsByCountryOf(list).countryTotalMedals| == |list|
    ensures forall i :: 0 <= i < |list| ==>
      MedalsByCountryOf(list).countryNames[i] == list[i].country &&
      MedalsByCountryOf(list).countryTotalMedals[i] == TotalMedals(list[i].participations)
    decreases |list|
  {
    if list != [] {
      MedalsByCountryOfAt(list[..|list| - 1]);
    }
  }

  /** Holder-level view of `MedalsByCountryOfAt`, including the no-data case. */
  lemma MedalsByCountryAt(h: Holder)
    ensures !h.Loaded? ==> MedalsByCountry(h) == MedalTotals([], [])
    ensures h.Loaded? ==>
      |MedalsByCountry(h).countryNames| == |h.list| == |MedalsByCountry(h).countryTotalMedals| &&
      forall i :: 0 <= i < |h.list| ==>
        MedalsByCountry(h).countryNames[i] == h.list[i].country &&
        MedalsByCountry(h).countryTotalMedals[i] == TotalMedals(h.list[i].participations)
  {
    if h.Loaded? {
      MedalsByCountryOfAt(h.list);
    }
  }

  /**
   * The `map` body as the source runs it: a loop that pushes each country's
   * name and summed medal count onto two local sequences.
   */
  method TotalMedalsByCountry(h: Holder) returns (r: MedalTotals)
    ensures r == MedalsByCountry(h)
    ensures !h.Loaded? ==> r.countryNames == [] && r.countryTotalMedals == []
    ensures h.Loaded? ==>
      |r.countryNames| == |h.list| && |r.countryTotalMedals| == |h.list| &&
      forall i :: 0 <= i < |h.list| ==>
        r.countryNames[i] == h.list[i].country &&
        r.countryTotalMedals[i] == TotalMedals(h.list[i].participations)
  {
    if !h.Loaded? {
      return MedalTotals([], []);
    }
    var list := h.list;
    var countryNames: seq<string> := [];
    var countryTotalMedals: seq<int> := [];
    for k := 0 to |list|
      invariant MedalTotals(countryNames, countryTotalMedals) == MedalsByCountryOf(list[..k])
    {
      var country := list[k];
      countryNames := countryNames + [country.country];
      var totalMedals := TotalMedals(country.participations);
      countryTotalMedals := countryTotalMedals + [totalMedals];
      assert list[..k + 1][..k] == list[..k];
    }
    assert list[..|list|] == list;
    r := MedalTotals(countryNames, countryTotalMedals);
    MedalsByCountryOfAt(list);
  }

  /** The service object: its one piece of state is the data holder. */
  class OlympicService {
    var olympics: Holder

    /** The holder starts out "not loaded". */
    constructor ()
      ensures olympics == NotLoaded
    {
      olympics := NotLoaded;
    }

    /**
     * Applies the outcome of the dataset request to the holder. The result is
     * what the returned stream emits before completing: the fetched list on
     * success, nothing on failure (the error is not passed on).
     */
    method LoadInitialData(response: FetchResult) returns (emitted: Option<seq<OlympicCountry>>)
      modifies this
      ensures response.Fetched? ==> olympics == Loaded(response.list) && emitted == Some(response.list)
      ensures response.FetchFailed? ==> olympics == LoadFailed && emitted == None
    {
      match response
      case Fetched(value) =>
        olympics := Loaded(value);
        emitted := Some(value);
      case FetchFailed =>
        olympics := LoadFailed;
        emitted := None;
    }

    /** Names and medal totals for whatever the holder currently contains. */
    method GetTotalMedalsByCountry() returns (r: MedalTotals)
      ensures r == MedalsByCountry(olympics)
    {
      r := TotalMedalsByCountry(olympics);
    }
  }
}
