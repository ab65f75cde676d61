/** The free-text / geo search of the normalized datasets: builds an
    Elasticsearch request body from a query string, an optional document type
    and an optional coordinate pair, hands it to the search backend and turns
    any backend failure into a `SearchError`. */
module Elastic {
  import opened Wrappers
  import PyStr

  /** The fields every term is matched against; `naam` weighs 1.5 times. */
  const Fields: seq<string> := ["naam^1.5", "beschrijving"]

  /** The fixed number of hits asked for. */
  const MaxResults: int := 1000

  /** The document field the distance sort is computed on. */
  const GeoField: string := "locatie.centroid"

  /** `{'multi_match': {'query': query, 'fields': fields}}` */
  datatype Clause = MultiMatch(query: string, fields: seq<string>)

  /** `{'type': {'value': value}}` */
  datatype Filter = TypeIs(value: string)

  /** One entry of the `sort` list: `'_score'`, or
      `{'_geo_distance': {field: point, 'order': order, 'unit': unit}}`.
      The coordinates are passed through untouched. */
  datatype SortKey =
    | Score
    | GeoDistance(field: string, point: seq<real>, order: string, unit: string)

  /** The `bool` section; a missing key is `None`. */
  datatype BoolQuery = BoolQuery(should: Option<seq<Clause>>, filter: Option<Filter>)

  /** The request body: `sort`, `size` and, when there is something to
      match or filter on, `query.bool`. */
  datatype Body = Body(sort: seq<SortKey>, size: int, query: Option<BoolQuery>)

  /** The backend's answer to one search: a response, or a raised error. */
  datatype Reply = Answered(response: string) | Raised(cause: string)

  /** The one error the search reports to its callers; it keeps the backend's
      error as its cause. */
  datatype SearchError = SearchError(cause: string)

  /** Truthiness of `lonlat`: `None` and an empty pair are false. */
  predicate HasPoint(lonlat: Option<seq<real>>) {
    lonlat.Some? && |lonlat.value| > 0
  }

  /** Truthiness of `doctype`: `None` and `""` are false. */
  predicate HasDoctype(doctype: Option<string>) {
    doctype.Some? && doctype.value != ""
  }

  /** The terms of `q`: its whitespace-separated words; none when `q` is `None`. */
  function Terms(q: Option<string>): seq<string> {
    if q.Some? then PyStr.Split(q.value) else []
  }

  /** One `multi_match` clause per term, in the order of the terms. */
  function Clauses(terms: seq<string>): (cs: seq<Clause>)
    ensures |cs| == |terms|
    ensures forall i :: 0 <= i < |terms| ==> cs[i] == MultiMatch(terms[i], Fields)
  {
    if terms == [] then [] else [MultiMatch(terms[0], Fields)] + Clauses(terms[1..])
  }

  /** The geo-distance sort entry for a point: nearest first, in kilometres. */
  function NearestFirst(point: seq<real>): SortKey {
    GeoDistance(GeoField, point, "asc", "km")
  }

  /** The shape of the request body, stated declaratively. */
  function QueryBody(q: Option<string>, doctype: Option<string>, lonlat: Option<seq<real>>): Body {
    var terms := Terms(q);
    var should := if terms != [] then Some(Clauses(terms)) else None;
    var filter := if HasDoctype(doctype) then Some(TypeIs(doctype.value)) else None;
    Body(
      if HasPoint(lonlat) then [NearestFirst(lonlat.value), Score] else [Score],
      MaxResults,
      if should.Some? || filter.Some? then Some(BoolQuery(should, filter)) else None)
  }

  /** Builds the request body step by step, as the search does before
      calling the backend. */
  method BuildQuery(q: Option<string>, doctype: Option<string>, lonlat: Option<seq<real>>)
    returns (body: Body)
    ensures body == QueryBody(q, doctype, lonlat)
  {
    var terms := Terms(q);
    var should: seq<Clause> := [];
    for i := 0 to |terms|
      invariant |should| == i
      invariant forall j :: 0 <= j < i ==> should[j] == MultiMatch(terms[j], Fields)
    {
      should := should + [MultiMatch(terms[i], Fields)];
    }
    assert should == Clauses(terms);
    var searchfilter: Option<Filter> := None;
    if HasDoctype(doctype) {
      searchfilter := Some(TypeIs(doctype.value));
    }
    var sort := [Score];
    if HasPoint(lonlat) {
      sort := [NearestFirst(lonlat.value)] + sort;
    }
    body := Body(sort, MaxResults, None);
    if should != [] || searchfilter.Some? {
      var boolquery := BoolQuery(None, None);
      if should != [] {
        boolquery := boolquery.(should := Some(should));
      }
      if searchfilter.Some? {
        boolquery := boolquery.(filter := searchfilter);
      }
      body := body.(query := Some(boolquery));
    }
  }

  /** Builds the body, fires it at the backend under `index` and returns the
      response; any error the backend raises comes back as a `SearchError`. */
  method Search(q: Option<string>, doctype: Option<string>, lonlat: Option<seq<real>>,
                index: string, backend: (string, Body) -> Reply)
    returns (r: Result<string, SearchError>)
    ensures var reply := backend(index, QueryBody(q, doctype, lonlat));
            (reply.Answered? ==> r == Success(reply.response)) &&
            (reply.Raised? ==> r == Failure(SearchError(reply.cause)))
  {
    var body := BuildQuery(q, doctype, lonlat);
    var reply := backend(index, body);
    match reply
    case Raised(cause) =>
      r := Failure(SearchError(cause));
    case Answered(response) =>
      r := Success(response);
  }

  /** There is one `should` clause per term of `q`, in order, each matching
      its term against `naam^1.5` and `beschrijving`; `should` is there
      exactly when there is at least one term. */
  lemma ShouldFollowsTerms(q: Option<string>, doctype: Option<string>, lonlat: Option<seq<real>>)
    ensures var b := QueryBody(q, doctype, lonlat);
            (b.query.Some? && b.query.value.should.Some?) <==> |Terms(q)| > 0
    ensures var b := QueryBody(q, doctype, lonlat);
            b.query.Some? && b.query.value.should.Some? ==>
              var should := b.query.value.should.value;
              |should| == |Terms(q)| &&
              forall i :: 0 <= i < |should| ==>
                should[i].query == Terms(q)[i] && should[i].fields == ["naam^1.5", "beschrijving"]
  {
  }

  /** `sort` always ends with `_score`; a given point puts a single
      distance sort on `locatie.centroid`, ascending in kilometres, in front
      of it, and without one `_score` is all there is. */
  lemma SortShape(q: Option<string>, doctype: Option<string>, lonlat: Option<seq<real>>)
    ensures var s := QueryBody(q, doctype, lonlat).sort;
            |s| == (if HasPoint(lonlat) then 2 else 1) && s[|s| - 1] == Score
    ensures var s := QueryBody(q, doctype, lonlat).sort;
            HasPoint(lonlat) ==>
              s[0] == GeoDistance("locatie.centroid", lonlat.value, "asc", "km")
  {
  }

  /** `size` is 1000 whatever the inputs. */
  lemma SizeFixed(q: Option<string>, doctype: Option<string>, lonlat: Option<seq<real>>)
    ensures QueryBody(q, doctype, lonlat).size == 1000
  {
  }

  /** `query` is present exactly when there is a term or a non-empty doctype;
      inside it, `filter` is present exactly when the doctype is non-empty and
      then filters on that type. */
  lemma QuerySections(q: Option<string>, doctype: Option<string>, lonlat: Option<seq<real>>)
    ensures var b := QueryBody(q, doctype, lonlat);
            b.query.Some? <==> (|Terms(q)| > 0 || HasDoctype(doctype))
    ensures var b := QueryBody(q, doctype, lonlat);
            b.query.Some? ==> (b.query.value.filter.Some? <==> HasDoctype(doctype))
    ensures var b := QueryBody(q, doctype, lonlat);
            b.query.Some? && HasDoctype(doctype) ==>
              b.query.value.filter == Some(TypeIs(doctype.value))
  {
  }

  /** A query string that is empty or only whitespace, with no doctype,
      produces no `query` at all. */
  lemma BlankQueryMatchesAll(q: string, doctype: Option<string>, lonlat: Option<seq<real>>)
    requires PyStr.Blank(q)
    requires !HasDoctype(doctype)
    ensures QueryBody(Some(q), doctype, lonlat).query == None
  {
    PyStr.SplitEmptyIffBlank(q);
  }

  /** A query string with a visible character always yields a `should`
      section. */
  lemma VisibleQueryMatchesTerms(q: string, doctype: Option<string>, lonlat: Option<seq<real>>)
    requires !PyStr.Blank(q)
    ensures var b := QueryBody(Some(q), doctype, lonlat);
            b.query.Some? && b.query.value.should.Some?
  {
    PyStr.SplitEmptyIffBlank(q);
  }

  /** The coordinates reach `sort` and nothing else. */
  lemma CoordinatesOnlyAffectSort(q: Option<string>, doctype: Option<string>,
                                  lonlat1: Option<seq<real>>, lonlat2: Option<seq<real>>)
    ensures var b1, b2 := QueryBody(q, doctype, lonlat1), QueryBody(q, doctype, lonlat2);
            b1.(sort := b2.sort) == b2
  {
  }

  /** The query string and the doctype reach `query` and nothing else. */
  lemma TermsAndDoctypeOnlyAffectQuery(q1: Option<string>, doctype1: Option<string>,
                                       q2: Option<string>, doctype2: Option<string>,
                                       lonlat: Option<seq<real>>)
    ensures var b1, b2 := QueryBody(q1, doctype1, lonlat), QueryBody(q2, doctype2, lonlat);
            b1.(query := b2.query) == b2
  {
  }

  /** Joining words with spaces and searching for that string asks for
      exactly those words, one clause each. */
  lemma JoinedWordsBecomeClauses(words: seq<string>, doctype: Option<string>, lonlat: Option<seq<real>>)
    requires |words| > 0
    requires forall k :: 0 <= k < |words| ==> PyStr.IsWord(words[k])
    ensures var b := QueryBody(Some(PyStr.Join(words)), doctype, lonlat);
            b.query.Some? && b.query.value.should == Some(Clauses(words))
  {
    PyStr.SplitJoin(words);
  }
}
