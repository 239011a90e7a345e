# flax mock definitions, in Dafny

flax is an HTTP mock server. A user describes mocks in a JSON or YAML
spec. An HTTP mock matches a request by methods, path, queries and headers,
and then answers with a fixed response or a forward. A REST mock serves a
collection of JSON objects under a base path. Three generations of the mock
definitions live side by side:

- `internal/spec` and `internal/v1` fill defaults in place (`SetDefaults`),
  hash a mock by its expectation with FNV-1a, and (in `v1`) keep a
  registry of mocks keyed by that hash;
- `internal/model` computes defaulted copies (`WithDefaults`), and turns
  every mock into request expectations whose hash is taken over a canonical
  form;
- `pkg/http` provides the response writer that records the first status
  written, and the text of an HTTP error.

The Dafny modules follow the packages:

| module | file | models |
|---|---|---|
| `Base` | base.dfy | Option/Result, JSON values, string maps, pairs, responses |
| `Order` | order.dfy | Go string order, `sort.Strings`, `sort.Slice` by name, map listings, ASCII upper-casing |
| `Paths` | paths.dfy | `path.Clean` and `filepath.Join` on slash-separated paths |
| `Hashing` | hashing.dfy | the FNV-1a hasher (by its contract) and the `hashBool`/`hashString`/`hashStringSlice`/`hashStringMap` helpers |
| `RestStore` | store.dfy | `findID`, `RESTStore.Index`, the list body |
| `SpecHttp`, `SpecRest`, `SpecLoader` | spec_http.dfy, spec_rest.dfy, spec_loader.dfy | `internal/spec` |
| `V1Http`, `V1Rest`, `V1Mock` | v1_http.dfy, v1_rest.dfy, v1_mock.dfy | `internal/v1` |
| `ModelExpectation`, `ModelHttp`, `ModelRest`, `ModelMock` | model_expectation.dfy, model_http.dfy, model_rest.dfy, model_mock.dfy | `internal/model` |
| `PkgHttp` | pkg_http.dfy | `pkg/http` |

How the Go code is modelled:

- Go structs are values, so they become datatypes. A pointer-receiver
  `SetDefaults` becomes a function from the old value to the new one.
- A nil pointer, slice or map is `None`.
- State that lives behind a pointer becomes a class:
  - the hasher;
  - the v1 mock registry;
  - the spec returned by `ReadSpec`, whose mock slices are arrays
    normalised element by element;
  - the response writer.
- In `internal/model`, an expectation's slices are arrays. A copy of the
  struct therefore shares the caller's storage, as in Go, and
  `canonical()` sorts the caller's arrays in place.
- Go map iteration order is unspecified. Loops over maps pick any
  remaining key.
- `sort.Slice` is not stable. The pair sort therefore promises only "sorted
  by name and a permutation". When names are distinct, the result is
  unique.
- A Go string is modelled as its UTF-8 bytes, one `char` per byte, as
  `[]byte(s)` gives them. The digest is FNV-1a over `bv64` of those bytes,
  not of Unicode code points.

Where the source and its design description disagree, the model follows
the code:

- `model.RESTMock.withDefaults` and `model.HTTPMock.withDefaults` only
  replace an empty path by "/". They do not clean it.
- `HTTPExpectation.GetHash` returns a `uint64`, not a string.
- `internal/v1`'s `findID` message does not quote the key; `internal/spec`'s
  does.
- `internal/v1`'s default REST mock uses the list key "data".
- `internal/v1`'s `DefaultHTTPMock` sets no response headers.
- The definition of `internal/spec`'s `DefaultHTTPMock` is not part of this
  model. The model uses the value internal/spec/http_test.go:859-873
  expects, GET "/" answering 200, which is also what internal/v1/http.go:159-169
  builds.

## Model

| member | source | states |
|---|---|---|
| Base.ObjectsJson | internal/spec/rest.go:132-137 | nil objects encode as null; otherwise an array holding each object in order |
| Order.SortStrings | internal/spec/helper.go:57-59 | `sort.Strings`: the result is sorted in Go's byte order and is a permutation of the input |
| Order.SortedUnique | internal/spec/helper.go:57-59 | two sorted permutations of the same strings are equal, so the sorted order is unique |
| Order.SortStringsPermutation | internal/spec/helper.go:51-64 | permuting the input does not change the sorted result |
| Order.SortByName | internal/spec/helper.go:75-79 | sorting pairs by name gives a sorted permutation |
| Order.SortedByNameUnique | internal/spec/helper.go:75-79 | with distinct names, two sorted permutations are equal, so the unstable sort is deterministic |
| Order.DistinctNamesPermutation | internal/spec/helper.go:66-79 | distinct names stay distinct under permutation |
| Order.MapPairs | internal/spec/helper.go:66-79 | the canonical listing of a map: sorted by key, one pair per entry, each pair carrying its value |
| Order.MapPairsUnique | internal/spec/helper.go:66-79 | every sorted listing of a map is the canonical one |
| Order.ToUpper | internal/model/expectation.go:32-62 | `strings.ToUpper` on ASCII: same length; lower-case letters mapped, everything else kept |
| Paths.Split | internal/spec/http.go:52 | `path.Clean` scans the path piece by piece between slashes; there is always at least one piece |
| Paths.SplitPartsNoSlash | internal/spec/http.go:52 | no piece holds a slash |
| Paths.JoinSplit | internal/spec/http.go:52 | joining the pieces with "/" gives the path back |
| Paths.SplitJoin | internal/spec/http.go:52 | splitting slash-free pieces joined with "/" gives the pieces back |
| Paths.Clean | internal/spec/http.go:52 | `path.Clean`: a rooted path stays rooted and never becomes empty |
| Paths.CleanRootedIdempotent | internal/spec/http.go:52 | cleaning a rooted, cleaned path again changes nothing |
| Paths.CleanName | internal/spec/http.go:52 | a plain name `x` becomes "/x" |
| Paths.CleanRoot | internal/spec/http.go:52 | "/" stays "/" and "" becomes "." |
| Paths.JoinPath | internal/model/mock.go:192 | `filepath.Join`: the non-empty elements joined with "/" and cleaned |
| Paths.JoinItemPath | internal/model/mock.go:206 | joining a cleaned base path with a rooted segment gives base + segment, or the segment alone under "/" |
| Hashing.Hasher.Write | internal/spec/helper.go:45-49 | the hasher's input grows by exactly the bytes written |
| Hashing.Hasher.Sum64 | internal/spec/http.go:88 | the digest is FNV-1a of everything written |
| Hashing.BoolText | internal/spec/helper.go:39-43 | `strconv.FormatBool`: "true" or "false" |
| Hashing.HashBool | internal/spec/helper.go:39-43 | writes the text of each flag in turn |
| Hashing.HashString | internal/spec/helper.go:45-49 | writes the strings in turn, with no separator |
| Hashing.SortStringsInPlace | internal/spec/helper.go:58 | the array ends up holding the sorted permutation of its old contents |
| Hashing.SortPairsInPlace | internal/spec/helper.go:76-78 | the array ends up sorted by name and a permutation of its old contents |
| Hashing.HashStringSlice | internal/spec/helper.go:51-64 | copies the slice, sorts the copy when canonical, and writes its elements; the caller's slice is untouched |
| Hashing.CollectEntries | internal/spec/helper.go:67-73 | the buffer lists every map entry exactly once, in some order |
| Hashing.SortEntries | internal/spec/helper.go:75-79 | sorting a listing of a map by key gives the canonical listing |
| Hashing.WritePairs | internal/spec/helper.go:81-84 | writes each pair's name and then its value |
| Hashing.HashStringMap | internal/spec/helper.go:66-85 | canonical mode writes the entries in ascending key order |
| Hashing.NoSeparator | internal/spec/helper.go:45-49 | example: ("ab","c") and ("a","bc") write the same bytes |
| Hashing.StringOrderMatters | internal/spec/helper.go:45-49 | example: swapping two different arguments changes the bytes, so their order matters |
| Hashing.SliceBytesPermutation | internal/spec/helper.go:51-64 | in canonical mode every permutation of a slice writes the same bytes |
| Hashing.MapBytesEmpty | internal/spec/helper.go:66-85 | an empty or nil map writes nothing |
| Hashing.MapBytesNonEmpty | internal/spec/helper.go:66-85 | a map with a non-empty key writes something |
| RestStore.ErrorText | internal/spec/helper.go:21 | the missing-identifier text: the key as `%q` quotes it in `internal/spec`, as it is in `internal/v1` (internal/v1/helper.go:69) |
| RestStore.Quote | internal/spec/helper.go:21 | `%q` (`strconv.Quote`): the escaped key between double quotes |
| RestStore.QuotePlain | internal/spec/helper.go:21 | a key of printable ASCII without `"` and `\` is quoted as it is |
| RestStore.QuoteRoundTrip | internal/spec/helper.go:21 | decoding the escapes gives the key back, so distinct keys give distinct messages |
| RestStore.QuoteEscapes | internal/spec/helper.go:21 | example: the key `a"b` is written `"a\"b"` |
| RestStore.FindID | internal/spec/helper.go:16-31 | an explicit key is looked up alone; an empty key tries "id", "Id", "ID", "_id" in order; otherwise an error |
| RestStore.FindIDDefaults | internal/spec/helper.go:24-30 | the first default identifier present wins, and none present is an error |
| RestStore.DirectoryOf | internal/spec/rest.go:46-51 | every stored object is one of the objects, and it is filed under the value its own identifier resolves to |
| RestStore.Indexed | internal/spec/rest.go:43-52 | indexing keeps identifier and objects and always leaves a (non-nil) directory |
| RestStore.Index | internal/spec/rest.go:43-52 | only the directory changes: it becomes the directory built from the objects, and it is never nil |
| RestStore.DirectoryKeys | internal/spec/rest.go:46-51 | a value is a key of the directory exactly when some object's identifier resolves to it |
| RestStore.DirectoryLastWins | internal/spec/rest.go:49 | the object stored under a key is the last object carrying that key |
| RestStore.DirectoryValues | internal/spec/rest.go:46-51 | every stored object is one of the objects, filed under its own identifier |
| RestStore.IndexEmpty | internal/spec/rest.go:44 | a store without objects gets an empty directory |
| RestStore.ListBody | internal/spec/rest.go:131-138 | an empty list key gives the objects themselves; otherwise a one-key object wrapping them |
| SpecHttp.SetDefaults | internal/spec/http.go:47-67 | empty methods become GET; the path is rooted and cleaned; a response is created only when there is neither response nor forward; status 0 becomes 200; everything else is kept |
| SpecHttp.SetDefaultsIdempotent | internal/spec/http.go:47-67 | applying the defaults twice equals applying them once |
| SpecHttp.SetDefaultsPath | internal/spec/http.go:52 | "" becomes "/" and a plain name gets a leading slash |
| SpecHttp.SetDefaultsKeepsOddStatus | internal/spec/http.go:59-61 | example: only 0 is replaced: an out-of-range status such as 700 is kept |
| SpecHttp.StringExample | internal/spec/http.go:70-76 | example: methods joined by "|", then a space, then the path |
| SpecHttp.String | internal/spec/http.go:70-76 | the text is as long as the joined methods, one space and the path, with the space right after the joined methods |
| SpecHttp.StringSplitsAtLastSpace | internal/spec/http.go:70-76 | for a path without spaces, the space after the joined methods is the last space of the text, and the text splits there back into the joined methods and the path |
| SpecHttp.WriteExpect | internal/spec/http.go:82-86 | the hasher receives the sorted methods, the path, the prefix text, then the queries and headers in key order |
| SpecHttp.Hash | internal/spec/http.go:79-89 | the digest is FNV-1a of the expectation's bytes alone |
| SpecHttp.HashMethodOrder | internal/spec/http.go:82 | reordering the methods does not change the hash input |
| SpecHttp.HashAddedMethod | internal/spec/http.go:82 | adding a method changes the hash input |
| SpecHttp.HashIgnoresActions | internal/spec/http.go:79-89 | two mocks with the same expectation hash the same, whatever their response or forward |
| SpecHttp.DefaultHTTPMock | internal/spec/http_test.go:859-873 | GET "/" with a 200 response and no forward, the value the package's test expects (also internal/v1/http.go:159-169) |
| SpecHttp.DefaultHTTPMockIsDefaulted | internal/spec/spec.go:36-47 | the default mock is a fixed point of `SetDefaults` |
| SpecRest.OrDefault | internal/spec/rest.go:65-83 | a status code 0 becomes the default; any other code is kept |
| SpecRest.SetDefaults | internal/spec/rest.go:62-94 | base path rooted and cleaned; GET/POST/PUT/PATCH/DELETE 0 become 200/201/200/200/204; nil headers become a JSON content type; nil objects become empty |
| SpecRest.SetDefaultsIdempotent | internal/spec/rest.go:62-94 | applying the defaults twice equals applying them once |
| SpecRest.SetDefaultsOfEmpty | internal/spec/rest.go:62-94 | the zero mock gets "/", the standard codes, JSON headers and an empty store |
| SpecRest.String | internal/spec/rest.go:97-99 | the text is the base path |
| SpecRest.Hash | internal/spec/rest.go:102-109 | FNV-1a of the base path followed by the headers in key order |
| SpecRest.HashIgnoresResponseAndStore | internal/spec/rest.go:102-109 | response and store never enter the hash |
| SpecRest.HashBasePathMatters | internal/spec/rest.go:105 | under the same headers, different base paths give different hash inputs |
| SpecRest.HashHeadersMatter | internal/spec/rest.go:106 | adding headers to an expectation without them changes the hash input |
| SpecRest.ListResponse | internal/spec/rest.go:124-140 | the list handler writes the GET status, sets the response headers (after the status, see "## Left out") and encodes the list body |
| SpecLoader.ConfigSetDefaults | internal/spec/spec.go:18-26 | ports 0 become 8080 (HTTP) and 8443 (HTTPS); others are kept |
| SpecLoader.ConfigSetDefaultsIdempotent | internal/spec/spec.go:18-26 | idempotent, and both ports end non-zero |
| SpecLoader.Spec.constructor | internal/spec/spec.go:29-33 | the spec holds the decoded config and fresh arrays of the decoded mocks |
| SpecLoader.Decoded | internal/spec/spec.go:61-67 | JSON is tried first and YAML second; an unopened file decodes to nothing |
| SpecLoader.NormalRest | internal/spec/spec.go:76-77 | a REST mock after `SetDefaults`, then `Index` |
| SpecLoader.DefaultSpec | internal/spec/spec.go:36-47 | ports 8080/8443, the default HTTP mock, and no REST mocks |
| SpecLoader.DefaultedHttp | internal/spec/spec.go:71-73 | every HTTP mock defaulted, in place and in order |
| SpecLoader.NormalRests | internal/spec/spec.go:75-78 | every REST mock defaulted and indexed, in order |
| SpecLoader.DefaultHttpMocks | internal/spec/spec.go:71-73 | the array ends up holding each old element defaulted |
| SpecLoader.NormaliseRestMock | internal/spec/spec.go:76-77 | one REST mock defaulted and then indexed |
| SpecLoader.NormaliseRestMocks | internal/spec/spec.go:75-78 | the array ends up holding each old element normalised |
| SpecLoader.ReadSpec | internal/spec/spec.go:51-81 | a missing file gives the default spec; another open error or a file neither JSON nor YAML gives an error and no spec; otherwise the decoded spec, normalised |
| V1Http.ExpectSetDefaults | internal/v1/http.go:37-43 | empty methods become GET; the path is rooted and cleaned |
| V1Http.ResponseSetDefaults | internal/v1/http.go:54-58 | a status outside [100, 599] becomes 200; a valid status is kept |
| V1Http.ForwardSetDefaults | internal/v1/http.go:82-84 | nothing changes |
| V1Http.SetDefaults | internal/v1/http.go:117-131 | defaults each part; creates a response only when there is neither response nor forward; any response present has a valid status |
| V1Http.SetDefaultsIdempotent | internal/v1/http.go:117-131 | applying the defaults twice equals applying them once |
| V1Http.ResponseStatusRange | internal/v1/http.go:54-58 | 700 and 0 become 200, and 404 is kept |
| V1Http.ResponseHandler | internal/v1/http.go:61-72 | writes the response's status, sets its headers (after the status, see "## Left out") and writes its body |
| V1Http.ForwardHandler | internal/v1/http.go:87-102 | always writes 501, sets the forward's headers (after the status, see "## Left out") and writes the not-implemented message |
| V1Http.RouteHandler | internal/v1/http.go:151-155 | the response's handler if there is one, else the forward's, else none |
| V1Http.DefaultedMockHasHandler | internal/v1/http.go:117-155 | after the defaults every mock has a handler; a forward-only mock answers 501 |
| V1Http.DefaultHTTPMock | internal/v1/http.go:159-169 | GET "/" with a 200 response and no forward |
| V1Http.DefaultHTTPMockAnswers | internal/v1/http.go:159-169 | the default mock answers 200 with no headers and is already defaulted |
| V1Rest.ExpectHash | internal/v1/rest.go:22-29 | FNV-1a of the base path followed by the headers in key order |
| V1Rest.Hash | internal/v1/rest.go:70-72 | the digest of the expectation alone |
| V1Rest.DefaultRESTMock | internal/v1/rest.go:240-264 | base path "/", codes 200/201/200/200/204, a JSON content type, list key "data", and an empty indexed store |
| V1Rest.DefaultListBody | internal/v1/rest.go:94-100 | the default mock lists its objects under "data" |
| V1Mock.Hash | internal/v1/http.go:24-34 | each kind of mock is hashed by its own expectation's bytes |
| V1Mock.UpsertedStep | internal/v1/mock.go:27-32 | one more added mock is one more map update |
| V1Mock.RemovedStep | internal/v1/mock.go:35-40 | one more deleted mock is one more key removal |
| V1Mock.MockService.constructor | internal/v1/mock.go:19-23 | the registry starts empty |
| V1Mock.MockService.Add | internal/v1/mock.go:27-32 | stores each mock under its hash, in order, replacing what was there |
| V1Mock.MockService.Delete | internal/v1/mock.go:35-40 | removes whatever is stored under each mock's hash |
| V1Mock.AddOne | internal/v1/mock.go:27-32 | after adding, the hash maps to the mock; the count grows only for a new hash |
| V1Mock.AddLaterWins | internal/v1/mock.go:27-32 | within one call, the later of two mocks with the same hash wins |
| V1Mock.OthersUntouched | internal/v1/mock.go:27-40 | adding and deleting leave every other hash alone |
| V1Mock.DeleteOne | internal/v1/mock.go:35-40 | deleting removes the hash; deleting an absent hash changes nothing |
| V1Mock.DeleteBySameExpectation | internal/v1/mock.go:35-40 | a mock with the same expectation deletes what was added |
| ModelExpectation.UpperAll | internal/model/expectation.go:38-40 | each method upper-cased, position by position |
| ModelExpectation.OrEmpty | internal/model/expectation.go:33-55 | a nil slice becomes a fresh empty one; an existing slice is reused |
| ModelExpectation.CanonicaliseMethods | internal/model/expectation.go:37-40 | the methods are sorted and then upper-cased, in the caller's array |
| ModelExpectation.SortQueriesAndHeaders | internal/model/expectation.go:49-59 | queries and headers each end sorted by name and a permutation, even when they are one array |
| ModelExpectation.CanonicaliseArrays | internal/model/expectation.go:37-59 | the three arrays end holding a canonical form of their old contents |
| ModelExpectation.Canonical | internal/model/expectation.go:32-62 | nil slices are replaced and existing arrays reused; the result is a canonical form of the old contents (methods sorted then upper-cased, path rooted and cleaned, pairs sorted by name) |
| ModelExpectation.WriteCanonical | internal/model/expectation.go:65-86 | the digest is FNV-1a of the methods, the path, and the names and values of queries and headers |
| ModelExpectation.GetHash | internal/model/expectation.go:65-86 | leaves the caller's arrays canonical; the digest is that of a canonical form, and of the unique one when names are distinct |
| ModelExpectation.CanonicalUnique | internal/model/expectation.go:32-62 | with distinct names, the canonical form is unique |
| ModelExpectation.GetHashPermutation | internal/model/expectation.go:65-86 | the hash ignores the order of methods, and of queries and headers with distinct names |
| ModelExpectation.CanonicalEmpty | internal/model/expectation.go:32-62 | the empty expectation canonicalises to no methods and "/" |
| ModelExpectation.MixedCaseMethods | internal/model/expectation.go:32-62 | sorting comes before upper-casing: ["a","B"] becomes ["B","A"] |
| ModelExpectation.UpperCaseMethods | internal/model/expectation.go:32-62 | upper-case methods simply come out sorted |
| ModelExpectation.TeamsPath | internal/model/expectation.go:32-62 | "teams" becomes "/teams" |
| ModelHttp.ExpectWithDefaults | internal/model/http.go:49-67 | empty methods become GET; the path is rooted and cleaned; nil maps become empty; the prefix is kept |
| ModelHttp.ResponseWithDefaults | internal/model/http.go:124-140 | delay "" becomes "0"; a status outside [100, 599] becomes 200; nil headers become empty; the body is kept |
| ModelHttp.ForwardWithDefaults | internal/model/http.go:143-155 | delay "" becomes "0"; nil headers become empty; the target is kept |
| ModelHttp.WithDefaults | internal/model/http.go:158-164 | each part is defaulted on its own |
| ModelHttp.ExpectHash | internal/model/http.go:70-121 | FNV-1a of the sorted methods, the path, the prefix text, and the queries and headers in key order; the same bytes as in `internal/spec` |
| ModelHttp.Hash | internal/model/http.go:167-169 | the expectation's hash alone |
| ModelHttp.ExpectDefaultsExamples | internal/model/http.go:49-67 | the empty expectation becomes GET "/" with empty maps; a fully set one is unchanged |
| ModelHttp.WithDefaultsIdempotent | internal/model/http.go:49-164 | every default is a fixed point |
| ModelHttp.EmptyMockDefaults | internal/model/http.go:158-164 | even the zero mock gets a defaulted response and forward |
| ModelHttp.PrefixChangesBytes | internal/model/http.go:70-121 | flipping only the prefix flag changes the hash input |
| ModelRest.ExpectWithDefaults | internal/model/rest.go:51-60 | the base path is rooted and cleaned; nil headers become empty |
| ModelRest.StatusOr | internal/model/rest.go:75-89 | a code in [100, 599] is kept; any other becomes the default |
| ModelRest.ResponseWithDefaults | internal/model/rest.go:70-100 | delay "" becomes "0"; POST/PUT/PATCH/DELETE codes out of range become 201/200/200/204; nil headers become empty |
| ModelRest.StoreWithDefaults | internal/model/rest.go:103-113 | nil objects become empty; the identifier is kept |
| ModelRest.WithDefaults | internal/model/rest.go:116-122 | each part is defaulted on its own |
| ModelRest.Hash | internal/model/rest.go:125-127 | FNV-1a of the base path alone |
| ModelRest.ExpectHash | internal/model/rest.go:63-67 | the expectation's digest is FNV-1a of the base path alone; the headers are not hashed |
| ModelRest.HashOnlyBasePath | internal/model/rest.go:63-67 | mocks with the same base path hash the same, whatever else differs |
| ModelRest.DefaultedStatusesValid | internal/model/rest.go:70-100 | after the defaults every status code is in range |
| ModelRest.WithDefaultsIdempotent | internal/model/rest.go:51-122 | every default is a fixed point |
| ModelRest.ExpectDefaultsExamples | internal/model/rest.go:51-60 | "" becomes "/" and "/x" is kept |
| ModelRest.ResponseDefaultsExample | internal/model/rest.go:70-100 | example: the zero response gets "0" and 201/200/200/204 |
| ModelMock.Contains | internal/model/mock.go:55-62 | true exactly when the property is one of the identifiers |
| ModelMock.IsID | internal/model/mock.go:55-62 | a property is an identifier exactly when it is one of "id", "_id", "Id", "ID" |
| ModelMock.IsIDExactly | internal/model/mock.go:9 | the identifiers are exactly "id", "_id", "Id", "ID" |
| ModelMock.HTTPWithDefaults | internal/model/mock.go:64-94 | empty methods become all five; "" becomes "/"; nil maps become empty; delay "" becomes "0"; an out-of-range status becomes 200 |
| ModelMock.RESTWithDefaults | internal/model/mock.go:126-156 | "" becomes "/"; nil maps become empty; delay "" becomes "0"; a nil store becomes empty; identifier and list handle are kept |
| ModelMock.WithDefaultsIdempotent | internal/model/mock.go:64-156 | both defaults are fixed points; a fully set HTTP mock is unchanged |
| ModelMock.CollectQueryPatterns | internal/model/mock.go:100-106 | one pair per query, its value being "{name:regex}" |
| ModelMock.PropertyQueriesSpec | internal/model/mock.go:163-170 | a property gets a query exactly when it is no identifier and some object has it; the pattern is "{prop}" |
| ModelMock.AddObjectProperties | internal/model/mock.go:165-169 | one object's non-identifier properties are added to the query map |
| ModelMock.CollectProperties | internal/model/mock.go:163-170 | the loop builds exactly the property queries of the store |
| ModelMock.ToArray | internal/model/mock.go:116-123 | a fresh array holding the elements |
| ModelMock.HTTPExpectations | internal/model/mock.go:97-124 | one expectation: the defaulted methods and path, the query patterns and the request headers |
| ModelMock.RestExpectation | internal/model/mock.go:190-195 | a single-method expectation sharing the query and header arrays |
| ModelMock.RestRoutes | internal/model/mock.go:189-231 | six expectations GET, POST, GET, PUT, PATCH, DELETE; the first two on the list path, the rest on the item path |
| ModelMock.RESTExpectations | internal/model/mock.go:159-232 | six expectations sharing the queries (pagination first, then property patterns) and the request headers; list path `Join(base)` and item path `Join(base, idPath)` |
| ModelMock.RestPaths | internal/model/mock.go:192-227 | the list path is the cleaned base; the item path is base + "/{id:...}", or that segment alone under "/" |
| ModelMock.DefaultRestPaths | internal/model/mock.go:192-227 | a root base gives "/" and "/{id:[-0-9A-Za-z]+}" |
| PkgHttp.NatTextRoundTrip | pkg/http/http.go:69 | reading the `%d` digits back gives the number |
| PkgHttp.GoDivTruncates | pkg/http/http.go:69 | `statusCode/100` truncates toward zero: -150 gives -1 |
| PkgHttp.ClassText | pkg/http/http.go:69 | the class ends in "xx"; codes between -99 and 99 give "0xx", codes of -100 and below start with a minus sign, and non-negative codes give digits before "xx" |
| PkgHttp.ClassTextRoundTrip | pkg/http/http.go:69 | for a non-negative code, the digits before "xx" read back as the code divided by 100 |
| PkgHttp.ClassOfValidStatus | pkg/http/http.go:69 | a status in [100, 599] has the class of its hundreds digit followed by "xx" (404 gives "4xx") |
| PkgHttp.Record | pkg/http/http.go:64-71 | the recorded code is 0 exactly when every code written was 0 |
| PkgHttp.RecordSnoc | pkg/http/http.go:66-70 | one more write records its code and class exactly when nothing non-zero was recorded before |
| PkgHttp.FirstWriteWins | pkg/http/http.go:64-71 | 404 then 500 records 404 and "4xx"; a 0 written first is overwritten by 404 |
| PkgHttp.ResponseWriter.constructor | pkg/http/http.go:58-62 | nothing is recorded and nothing has been passed on |
| PkgHttp.ResponseWriter.WriteHeader | pkg/http/http.go:64-71 | the code is always passed on; the code and its class are recorded only while the recorded code is 0 |
| PkgHttp.ResponseWriter.StatusCode | pkg/http/http.go:73-75 | the first non-zero code written, or 0 |
| PkgHttp.ResponseWriter.StatusClass | pkg/http/http.go:77-79 | the class of the recorded code |
| PkgHttp.ErrorText | pkg/http/http.go:53-55 | the error text starts with the method, a space, the path and a space, and ends with ": " and the body |
| PkgHttp.ErrorTextStatus | pkg/http/http.go:53-55 | a three-digit status stands just before ": " and the body and reads back as the status |
| PkgHttp.ErrorTextExample | pkg/http/http.go:53-55 | a GET of "/" answered 404 with body "gone" reads "GET / 404: gone" |

## Left out

- Route registration (`RegisterRoutes`, `RegisterRoute`) with gorilla/mux, the router, and the handlers' I/O are left out. The model keeps only what a handler answers (`V1Http.RouteHandler`, `SpecRest.ListResponse`). The `internal/model` route registration passes the prefix flag the opposite way round (internal/model/http.go:175-179); that is also outside the model.
- Delays (`time.ParseDuration`, `time.Sleep`), JSON/YAML decoding, file opening and body reading are left out. `ReadSpec` takes the outcome of opening and decoding as a parameter, and `NewHTTPError` (which reads the response body) is left out.
- Hashing.Hasher: `hash/fnv` is modelled by its contract (the digest is FNV-1a of the bytes written). The numeric digests are not analysed, so the lemmas speak of the hashed bytes. Equal bytes give equal digests; distinct bytes may still collide.
- `sort.Strings` and `sort.Slice` are library code, modelled by their outcome (sorted and a permutation) rather than by their algorithm.
- The order of Go map iteration is not modelled: any order may occur, so the results are stated as listings of the map.
- ModelHttp.ExpectHash: `internal/model`'s `HTTPExpect.Hash` sorts the caller's `Methods` slice in place; the model sorts a copy, so the reordering of the caller's slice is not captured.
- ModelMock.HTTPExpectations: the expectation's `Methods` shares the mock's slice in Go; the model gives it a fresh array.
- Response headers: the response, forward and REST list handlers call `WriteHeader` before they set the headers (internal/v1/http.go:66-69, internal/v1/http.go:93-96, internal/spec/rest.go:126-129). `net/http` sends the headers at `WriteHeader`, so those headers never reach the client. `V1Http.ResponseHandler`, `V1Http.ForwardHandler` and `SpecRest.ListResponse` record the headers the handler sets, not what the client receives. Header canonicalisation by `Header().Set` is left out as well.
- Pointer aliasing: in `internal/spec` and `internal/v1`, `HTTPMock` holds `*HTTPResponse` and `*HTTPForward`, and `SetDefaults` sets the status through that pointer. Copies of a mock that share the pointer all see the change. The model copies the response by value, so that sharing is not captured.
- Concurrency is left out: the v1 registry and the response writer are used from one thread.
- PkgHttp.ResponseWriter: the wrapped `http.ResponseWriter` is represented only by the codes passed to it.
- `MockService.Router` and the `Mock` interface's routing method are route registration, left out as above.
- RestStore.Quote: escapes `"`, `\` and the ASCII control characters as `strconv.Quote` does, and keeps every byte from 0x80 up as it is. Go decodes those bytes as UTF-8, writes invalid bytes as `\x..` and non-printable runes as `\u....`; the model does not.
- Order.ToUpper: upper-cases only the ASCII letters a-z. Go's `strings.ToUpper` also maps non-ASCII letters ("é" to "É", which changes the bytes) and replaces invalid UTF-8 with U+FFFD (which changes the length), so for such methods `CanonicaliseMethods` and `GetHash` do not hash the bytes Go hashes.
- RestStore.Index: Go panics at internal/spec/rest.go:49 when an identifier's value is a JSON array or object (an unhashable map key). The model turns that panic into the precondition `IdsHashable`, which `SpecLoader.ReadSpec` inherits as `Indexable`. The panic path itself is not modelled.
- Base.Json: JSON numbers are unbounded integers (`JNum`). Go decodes every JSON number as `float64`, and YAML yields `int` or `float64`. So fractional identifiers such as 1.5 cannot be expressed, and a YAML store holding `id: 1` and `id: 1.0` has two directory keys in Go (an `int` and a `float64`) but only one in the model.
- Integer widths: ports are `uint16` as in Go; status codes are unbounded integers (Go's `int` is 64 bits and no code near that range is considered).
