/** The token explorer: a fixed catalogue of carbon-credit projects, searched
    by a free-text query and narrowed by a project-type filter. */
module Explorer {
  import opened Text
  import Seqs

  /** A catalogue entry. Prices are in hundredths of a rupee. */
  datatype ProjectToken = ProjectToken(
    id: string, name: string, projectType: string, totalCredits: int, priceCents: int,
    location: string, verificationDate: string, issuer: string, status: string,
    carbonSequestered: int, projectArea: string, certificationBody: string, owners: int)

  function Catalogue(): seq<ProjectToken> {
    [ProjectToken("CCX-001", "Amazon Rainforest Conservation", "Forest Conservation", 2500, 1840,
                  "Amazon Basin, Brazil", "2024-01-15", "Green Planet Initiative", "Active",
                  2500, "1,250 hectares", "VERRA", 142),
     ProjectToken("REDD-002", "Mangrove Restoration Project", "REDD+", 1800, 2275,
                  "Sundarbans, Bangladesh", "2024-02-03", "Coastal Restoration Fund", "Active",
                  1800, "850 hectares", "Gold Standard", 89),
     ProjectToken("AFFOR-003", "Community Afforestation Initiative", "Afforestation", 950, 1520,
                  "Karnataka, India", "2024-01-28", "Rural Development Corp", "Pending",
                  950, "475 hectares", "CDM", 67)]
  }

  /** The query, lower-cased, occurs in the lower-cased name, id or location. */
  predicate MatchesSearch(t: ProjectToken, query: string) {
    var q := ToLower(query);
    Contains(ToLower(t.name), q) || Contains(ToLower(t.id), q) || Contains(ToLower(t.location), q)
  }

  /** The predicate given to `filter`. */
  predicate Keep(t: ProjectToken, query: string, filter: string) {
    if filter == "all" then MatchesSearch(t, query)
    else MatchesSearch(t, query) && Contains(ToLower(t.projectType), ToLower(filter))
  }

  /** `filteredTokens`: the catalogue entries kept, in catalogue order. */
  function FilterTokens(tokens: seq<ProjectToken>, query: string, filter: string): (r: seq<ProjectToken>)
    ensures Seqs.IsSubsequence(r, tokens)
    ensures forall t :: t in r <==> t in tokens && Keep(t, query, filter)
    ensures forall t :: Seqs.Count(r, t) == if Keep(t, query, filter) then Seqs.Count(tokens, t) else 0
  {
    if tokens == [] then []
    else if Keep(tokens[0], query, filter) then
      var rest := FilterTokens(tokens[1..], query, filter);
      assert ([tokens[0]] + rest)[1..] == rest;
      [tokens[0]] + rest
    else FilterTokens(tokens[1..], query, filter)
  }

  /** The "No tokens found" panel. */
  predicate NoTokensFound(tokens: seq<ProjectToken>, query: string, filter: string) {
    |FilterTokens(tokens, query, filter)| == 0
  }

  /** The panel shows exactly when no entry passes the search and filter. */
  lemma NoTokensFoundIff(tokens: seq<ProjectToken>, query: string, filter: string)
    ensures NoTokensFound(tokens, query, filter) <==> forall t :: t in tokens ==> !Keep(t, query, filter)
  {
    var r := FilterTokens(tokens, query, filter);
    if r != [] { assert r[0] in r; }
  }

  lemma ContainsEmpty(s: string)
    ensures Contains(s, "")
  {
  }

  /** With filter "all" and an empty query, every entry is listed, in order. */
  lemma {:induction false} EmptySearchListsAll(tokens: seq<ProjectToken>)
    ensures FilterTokens(tokens, "", "all") == tokens
    decreases |tokens|
  {
    if tokens != [] {
      ContainsEmpty(ToLower(tokens[0].name));
      assert ToLower("") == "";
      EmptySearchListsAll(tokens[1..]);
    }
  }

  /** A type filter only narrows: the result is an order-preserving
      selection of what "all" lists for the same query. */
  lemma {:induction false} FilterNarrowsAll(tokens: seq<ProjectToken>, query: string, filter: string)
    ensures Seqs.IsSubsequence(FilterTokens(tokens, query, filter), FilterTokens(tokens, query, "all"))
    decreases |tokens|
  {
    if tokens != [] {
      FilterNarrowsAll(tokens[1..], query, filter);
      var r := FilterTokens(tokens, query, filter);
      var all := FilterTokens(tokens, query, "all");
      var r1 := FilterTokens(tokens[1..], query, filter);
      var all1 := FilterTokens(tokens[1..], query, "all");
      if Keep(tokens[0], query, filter) {
        assert r == [tokens[0]] + r1 && all == [tokens[0]] + all1;
        assert r[1..] == r1 && all[1..] == all1;
      } else if Keep(tokens[0], query, "all") {
        assert all == [tokens[0]] + all1 && all[1..] == all1;
        if r != [] {
          assert r == r1;
        }
      }
    }
  }

  /** The filter id "forest" also occurs inside "afforestation", so the
      "Forest Conservation" choice lists the afforestation project as well
      as the forest one, and only the REDD+ project is dropped. */
  lemma ForestFilterIncludesAfforestation(tokens: seq<ProjectToken>, query: string, filter: string)
    requires |tokens| == 3 && query == "" && filter == "forest"
    requires tokens[0].projectType == "Forest Conservation"
    requires tokens[1].projectType == "REDD+"
    requires tokens[2].projectType == "Afforestation"
    ensures FilterTokens(tokens, query, filter) == [tokens[0], tokens[2]]
  {
    EmptyQueryLowered(query);
    ForestTypes(filter, tokens[0].projectType, tokens[1].projectType, tokens[2].projectType);
    var t0, t1, t2 := tokens[0], tokens[1], tokens[2];
    ContainsEmpty(ToLower(t0.name));
    ContainsEmpty(ToLower(t1.name));
    ContainsEmpty(ToLower(t2.name));
    assert Keep(t0, query, filter) && !Keep(t1, query, filter) && Keep(t2, query, filter);
    var s2 := tokens[2..];
    assert s2 == [t2] && s2[1..] == [];
    assert FilterTokens(s2, query, filter) == [t2];
    assert tokens[1..][1..] == s2;
    assert FilterTokens(tokens[1..], query, filter) == [t2];
  }

  /** On the catalogue itself: the "forest" filter lists CCX-001 and AFFOR-003. */
  lemma ForestFilterOnCatalogue(tokens: seq<ProjectToken>)
    requires tokens == Catalogue()
    ensures FilterTokens(tokens, "", "forest") == [tokens[0], tokens[2]]
    ensures tokens[0].id == "CCX-001" && tokens[2].id == "AFFOR-003"
  {
    ForestFilterIncludesAfforestation(tokens, "", "forest");
  }

  lemma EmptyQueryLowered(query: string)
    requires query == ""
    ensures ToLower(query) == ""
  {
  }

  lemma ForestTypes(filter: string, forest: string, redd: string, afforestation: string)
    requires filter == "forest" && forest == "Forest Conservation" && redd == "REDD+" && afforestation == "Afforestation"
    ensures Contains(ToLower(forest), ToLower(filter))
    ensures !Contains(ToLower(redd), ToLower(filter))
    ensures Contains(ToLower(afforestation), ToLower(filter))
  {
    LowerForest(filter);
    ForestInForestConservation(forest);
    ForestNotInRedd(redd);
    ForestInAfforestation(afforestation);
  }

  lemma LowerForest(s: string)
    requires s == "forest"
    ensures ToLower(s) == "forest"
  {
  }

  lemma ForestInForestConservation(s: string)
    requires s == "Forest Conservation"
    ensures Contains(ToLower(s), "forest")
  {
    var head := s[0..6];
    assert head == "Forest";
    assert ToLower(head) == "forest";
    ContainsLowered(s, "forest", 0);
  }

  lemma ForestNotInRedd(s: string)
    requires s == "REDD+"
    ensures !Contains(ToLower(s), "forest")
  {
    assert 'f' !in s && 'F' !in s;
    AbsentLowered(s, "forest", 0);
  }

  lemma ForestInAfforestation(s: string)
    requires s == "Afforestation"
    ensures Contains(ToLower(s), "forest")
  {
    var middle := s[2..8];
    assert middle == "forest";
    LowerForest(middle);
    ContainsLowered(s, "forest", 2);
  }
}
