# Search request construction of the zorg datasets

This project models `search` from `web/zorg/datasets/normalized/elastic.py`: the free-text
and geo search over the normalized care data (organisations, locations, activities). Given
a query string `q`, an optional document type and an optional coordinate pair, `search`
builds an Elasticsearch request body and sends it to the search backend. An error raised by
the backend is replaced by `SearchError`. The body has these parts:

- one `multi_match` clause per whitespace-separated word of `q`, searching `naam^1.5` and
  `beschrijving`, under `query.bool.should`;
- a `type` filter under `query.bool.filter` when a non-empty doctype is given;
- a `sort` list that ends with `_score`, with a `_geo_distance` sort on `locatie.centroid`
  (ascending, in km) in front of it when coordinates are given;
- `size` 1000;
- `query` itself only when there is a word or a filter.

Files:

- `wrappers.dfy`: `Option` and `Result`.
- `pystr.dfy`: Python's `str.split()` without a separator, over the whitespace set of
  `str.isspace()`, with its properties. The properties are: every word is non-empty and
  whitespace-free, no visible character is lost, leading whitespace is ignored, a blank
  string has no words, and words joined by spaces split back into the same words.
- `elastic.dfy`: the body as datatypes, a pure function `QueryBody` giving the body's
  shape, the step-by-step builder `BuildQuery` proved equal to it, `Search` with the
  backend as a parameter, and lemmas for each promised property of the body.

Python values are modelled this way:

- `q` is `Option<string>`, because `None` is absorbed by `q and ...`.
- `doctype` is `Option<string>`. `None` and `""` are both false.
- `lonlat` is `Option<seq<real>>`. `None` and an empty sequence are false. The numbers
  are only passed through.

## Model

| member | source | states |
|---|---|---|
| `PyStr.WordPrefix` | web/zorg/datasets/normalized/elastic.py:37 | the result is the longest prefix of the input holding no whitespace: a prefix, whitespace-free, and followed by whitespace or the end |
| `PyStr.Split` | web/zorg/datasets/normalized/elastic.py:37 | every word `q.split()` yields is non-empty and holds no whitespace |
| `PyStr.SplitKeepsText` | web/zorg/datasets/normalized/elastic.py:37 | the words, concatenated, are exactly the non-whitespace characters of the input, in order |
| `PyStr.SplitEmptyIffBlank` | web/zorg/datasets/normalized/elastic.py:36-37 | a string yields no words if and only if it is empty or only whitespace |
| `PyStr.SplitSkipsPadding` | web/zorg/datasets/normalized/elastic.py:37 | leading whitespace does not change the words |
| `PyStr.SplitJoin` | web/zorg/datasets/normalized/elastic.py:37 | words joined by single spaces split back into the same words |
| `Elastic.Clauses` | web/zorg/datasets/normalized/elastic.py:35-38 | one `multi_match` clause per term, the i-th matching the i-th term against `naam^1.5` and `beschrijving` |
| `Elastic.BuildQuery` | web/zorg/datasets/normalized/elastic.py:33-59 | the body assembled step by step (clauses in a loop, `sort` with an insert at the front, `query.bool` filled under conditions) equals `QueryBody` |
| `Elastic.Search` | web/zorg/datasets/normalized/elastic.py:61-69 | the backend is called with the index and the body `QueryBody` describes; its response is returned unchanged, and an error it raises comes back as `SearchError` carrying that error as cause, never as the backend's own error |
| `Elastic.ShouldFollowsTerms` | web/zorg/datasets/normalized/elastic.py:35-38 | `should` is present iff `q` has a word; then it has one clause per word, in order, with `query` that word and fields `['naam^1.5', 'beschrijving']` |
| `Elastic.SortShape` | web/zorg/datasets/normalized/elastic.py:40-48 | `sort` ends with `_score`; it has length 2 with coordinates and 1 without; with coordinates its first entry is `_geo_distance` on `locatie.centroid` with exactly those coordinates, `asc`, `km` |
| `Elastic.SizeFixed` | web/zorg/datasets/normalized/elastic.py:49-52 | `size` is 1000 for every input |
| `Elastic.QuerySections` | web/zorg/datasets/normalized/elastic.py:39-59 | `query` is present iff there is a word or a non-empty doctype; inside it `filter` is present iff the doctype is non-empty and then equals `{'type': {'value': doctype}}` |
| `Elastic.BlankQueryMatchesAll` | web/zorg/datasets/normalized/elastic.py:36-54 | an empty or whitespace-only `q` without a doctype produces no `query` key |
| `Elastic.VisibleQueryMatchesTerms` | web/zorg/datasets/normalized/elastic.py:36-57 | a `q` with any non-whitespace character always produces a `should` section |
| `Elastic.CoordinatesOnlyAffectSort` | web/zorg/datasets/normalized/elastic.py:40-59 | two bodies that differ only in the coordinates agree on everything but `sort` |
| `Elastic.TermsAndDoctypeOnlyAffectQuery` | web/zorg/datasets/normalized/elastic.py:35-59 | two bodies that differ only in `q` and the doctype agree on everything but `query`, so `sort` and `size` stay the same |
| `Elastic.JoinedWordsBecomeClauses` | web/zorg/datasets/normalized/elastic.py:35-38 | searching for words joined by spaces asks for exactly those words, one clause each, in order |

## Left out

- The `_elasticsearch` client singleton (`elastic.py:17-30`): a cached network client. The
  backend is the parameter `backend` of `Search`, a function from index and body to a
  response or a raised error. `settings.ELASTIC_INDEX` is the parameter `index`.
- `json.dumps(response)`: library serialisation. The response is modelled as text that is
  passed through.
- `Search` models every backend failure as caught, as `except Exception` does. Errors that
  are not `Exception` subclasses, such as `KeyboardInterrupt`, are not modelled.
- `Search` also does not model a failure of `json.dumps`. Such a failure happens outside the
  `try` and would not be wrapped.
- Python truthiness of `lonlat` values other than `None` or a sequence, such as a number or
  a string, is not modelled. The coordinates are reals that are only passed through; no
  floating point is modelled.
- `BuildQuery`: the `bool` dictionary is filled through an alias (`boolquery`) in the source.
  The model builds it as a value and then stores it. No other reference to it exists, so
  the result is the same.
- Dictionary key order (`sort`, `size`, `query`; `should` before `filter`) is kept only as
  field order in the datatypes.
- Logging, `web/zorg/api/views.py`, `web/zorg/api/urls.py`, `web/zorg/zorg/settings.py`:
  framework plumbing around other queries, not the search body.
- The batch update reconciler (`process_updates`): `datasets/normalized/batch.py` is not
  part of this model. Its behaviour is visible only through tests.
