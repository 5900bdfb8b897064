/**
 * The gateway's route table and a plain model of how a request path is matched
 * against it: both are split at '/', a literal segment must be equal, and a
 * "{name}" segment captures one non-empty path segment.  Routes are tried in
 * the order they were registered and the first match wins.
 *
 * Its use here is to give the Location a 201 response carries its meaning:
 * the lemmas at the end show that it routes back to the product it names.
 */
module Router {
  import opened Wrappers
  import opened Dto
  import opened Reactive
  import opened Foreign
  import opened ProductServices
  import ProductHandler

  datatype HttpMethod = GET | POST | PUT | DELETE

  /** The handler operations a route can lead to. */
  datatype Operation = List | FindById | Create | Update | Delete

  /** One segment of a route pattern: literal text, or a {name} that captures a path segment. */
  datatype PatternSegment = Literal(text: string) | Variable(name: string)

  /** A route: the method, the pattern's segments (the pattern split at '/'), the operation. */
  datatype Route = Route(verb: HttpMethod, pattern: seq<PatternSegment>, operation: Operation)

  /** A route that matched, with the values its variables captured. */
  datatype Match = Match(operation: Operation, variables: map<string, string>)

  /** The routes in registration order. */
  const Routes: seq<Route> := [
    Route(GET, ClientPattern, List),
    Route(PUT, ClientIdPattern, Update),
    Route(GET, ClientIdPattern, FindById),
    Route(DELETE, ClientIdPattern, Delete),
    Route(POST, ClientPattern, Create)
  ]

  /** "/api/client" */
  const ClientPattern: seq<PatternSegment> := [Literal(""), Literal("api"), Literal("client")]

  /** The path of the collection itself. */
  const CollectionPath: string := "/api/client"

  /** "/api/client/{id}" */
  const ClientIdPattern: seq<PatternSegment> := ClientPattern + [Variable("id")]

  /** No segment contains the separator. */
  predicate NoSeparator(segments: seq<string>) {
    forall i, j :: 0 <= i < |segments| && 0 <= j < |segments[i]| ==> segments[i][j] != '/'
  }

  /** The pieces of s between separators, in order: always at least one, none holding '/'. */
  function Split(s: string): (r: seq<string>)
    ensures |r| >= 1
    ensures NoSeparator(r)
    decreases |s|
  {
    if s == [] then [[]]
    else
      var rest := Split(s[1..]);
      if s[0] == '/' then [[]] + rest
      else [[s[0]] + rest[0]] + rest[1..]
  }

  /** The segments put back together with '/' between them. */
  function Join(segments: seq<string>): string
    requires |segments| >= 1
    decreases |segments|
  {
    if |segments| == 1 then segments[0]
    else segments[0] + "/" + Join(segments[1..])
  }

  lemma {:induction false} SplitWithoutSeparator(s: string)
    requires forall j :: 0 <= j < |s| ==> s[j] != '/'
    ensures Split(s) == [s]
    decreases |s|
  {
    if s != [] {
      SplitWithoutSeparator(s[1..]);
      assert [s[0]] + s[1..] == s;
    }
  }

  /** Splitting at a separator splits the two sides apart. */
  lemma {:induction false} SplitAtSeparator(a: string, b: string)
    ensures Split(a + ['/'] + b) == Split(a) + Split(b)
    decreases |a|
  {
    var s := a + ['/'] + b;
    if a == [] {
      assert s[0] == '/' && s[1..] == b;
      calc {
        Split(s);
        [[]] + Split(b);
        Split(a) + Split(b);
      }
    } else {
      assert s[0] == a[0] && s[1..] == a[1..] + ['/'] + b;
      SplitAtSeparator(a[1..], b);
      var left := Split(a[1..]);
      var rest := Split(s[1..]);
      if a[0] == '/' {
        calc {
          Split(s);
          [[]] + rest;
          [[]] + left + Split(b);
          Split(a) + Split(b);
        }
      } else {
        assert rest[0] == left[0] && rest[1..] == left[1..] + Split(b);
        calc {
          Split(s);
          [[a[0]] + rest[0]] + rest[1..];
          [[a[0]] + left[0]] + left[1..] + Split(b);
          Split(a) + Split(b);
        }
      }
    }
  }

  /** Split undoes Join when no segment holds the separator. */
  lemma {:induction false} SplitJoin(segments: seq<string>)
    requires |segments| >= 1 && NoSeparator(segments)
    ensures Split(Join(segments)) == segments
    decreases |segments|
  {
    assert forall j :: 0 <= j < |segments[0]| ==> segments[0][j] != '/';
    SplitWithoutSeparator(segments[0]);
    if |segments| > 1 {
      SplitAtSeparator(segments[0], Join(segments[1..]));
      assert Join(segments) == segments[0] + ['/'] + Join(segments[1..]);
      SplitJoin(segments[1..]);
      assert [segments[0]] + segments[1..] == segments;
    }
  }

  /** Matches path segments against pattern segments one by one, collecting what the variables capture. */
  function MatchSegments(pattern: seq<PatternSegment>, path: seq<string>): Option<map<string, string>>
    decreases |pattern|
  {
    if |pattern| != |path| then None
    else if pattern == [] then Some(map[])
    else
      match MatchSegments(pattern[1..], path[1..])
      case None => None
      case Some(variables) =>
        match pattern[0]
        case Variable(name) => if path[0] == [] then None else Some(variables[name := path[0]])
        case Literal(text) => if text == path[0] then Some(variables) else None
  }

  function MatchPath(pattern: seq<PatternSegment>, path: string): Option<map<string, string>> {
    MatchSegments(pattern, Split(path))
  }

  /** The first route whose method is the request's and whose pattern matches its path. */
  function Dispatch(routes: seq<Route>, verb: HttpMethod, path: string): Option<Match>
    decreases |routes|
  {
    if routes == [] then None
    else if routes[0].verb == verb && MatchPath(routes[0].pattern, path).Some? then
      Some(Match(routes[0].operation, MatchPath(routes[0].pattern, path).value))
    else
      Dispatch(routes[1..], verb, path)
  }

  /**
   * A product id that survives as one path segment of the Location: not empty,
   * not a dot segment ("." or ".."), which a client removes when it resolves the
   * reference; only ASCII characters, so the header carries the id as it is; and
   * none of the characters that would end the segment or the path, or that the
   * server decodes ('/', '?', '#', ';', '%').
   */
  predicate IsPlainSegment(id: string) {
    id != [] && id != "." && id != ".." &&
    forall j :: 0 <= j < |id| ==> id[j] < 128 as char && id[j] !in "/?#;%"
  }

  lemma LocationSegments(id: string)
    requires IsPlainSegment(id)
    ensures Split(ProductHandler.Location(id)) == ["", "api", "client", id]
  {
    var segments := ["", "api", "client", id];
    assert Join(segments[3..]) == id;
    assert Join(segments[2..]) == "client/" + id;
    assert Join(segments[1..]) == "api/client/" + id;
    assert Join(segments) == ProductHandler.Location(id);
    assert NoSeparator(segments);
    SplitJoin(segments);
  }

  /** The Location of a product matches "/api/client/{id}" with its id, and not "/api/client". */
  lemma LocationMatches(id: string)
    requires IsPlainSegment(id)
    ensures MatchPath(ClientPattern, ProductHandler.Location(id)) == None
    ensures MatchPath(ClientIdPattern, ProductHandler.Location(id)) == Some(map["id" := id])
  {
    LocationSegments(id);
    var segments := ["", "api", "client", id];
    assert MatchSegments(ClientIdPattern[3..], segments[3..]) == Some(map["id" := id]);
    assert MatchSegments(ClientIdPattern[2..], segments[2..]) == Some(map["id" := id]);
    assert MatchSegments(ClientIdPattern[1..], segments[1..]) == Some(map["id" := id]);
  }

  /**
   * The Location of a product routes GET, PUT and DELETE to findById, update
   * and delete of that same id, and POST nowhere.
   */
  lemma LocationRoutesBack(id: string)
    requires IsPlainSegment(id)
    ensures Dispatch(Routes, GET, ProductHandler.Location(id)) == Some(Match(FindById, map["id" := id]))
    ensures Dispatch(Routes, PUT, ProductHandler.Location(id)) == Some(Match(Update, map["id" := id]))
    ensures Dispatch(Routes, DELETE, ProductHandler.Location(id)) == Some(Match(Delete, map["id" := id]))
    ensures Dispatch(Routes, POST, ProductHandler.Location(id)) == None
  {
    LocationMatches(id);
    var path := ProductHandler.Location(id);
    var found := Some(map["id" := id]);
    assert Routes[1..][1..] == Routes[2..];
    assert Routes[2..][1..] == Routes[3..];
    assert Routes[3..][1..] == Routes[4..];
    assert Routes[4..][1..] == [];
    assert Dispatch(Routes[2..], GET, path) == Some(Match(FindById, found.value));
    assert Dispatch(Routes[3..], DELETE, path) == Some(Match(Delete, found.value));
    assert Dispatch(Routes[2..], DELETE, path) == Dispatch(Routes[3..], DELETE, path);
    assert Dispatch(Routes[4..], POST, path) == None;
    assert Dispatch(Routes[2..], POST, path) == Dispatch(Routes[4..], POST, path);
  }

  /** The Location of a 201 from create leads GET back to findById of the id upstream assigned. */
  lemma CreatedLocationRoutesBack(rt: Runtime, service: ProductService, body: Mono<DtoValue>)
    requires ProductHandler.CreateResult(rt, service, body).Emits?
    requires ProductHandler.CreateResult(rt, service, body).value.status == 201
    requires ProductHandler.CreateResult(rt, service, body).value.body.ProductBody?
    requires ProductHandler.CreateResult(rt, service, body).value.body.product.id.Some?
    requires IsPlainSegment(ProductHandler.CreateResult(rt, service, body).value.body.product.id.value)
    ensures var r := ProductHandler.CreateResult(rt, service, body).value;
      r.location.Some? &&
      Dispatch(Routes, GET, r.location.value) == Some(Match(FindById, map["id" := r.body.product.id.value]))
  {
    var r := ProductHandler.CreateResult(rt, service, body).value;
    LocationRoutesBack(r.body.product.id.value);
  }

  /** The Location of a 201 from update leads GET and PUT back to the same path id. */
  lemma UpdatedLocationRoutesBack(rt: Runtime, service: ProductService, body: Mono<ProductValue>, id: string)
    requires ProductHandler.Update(rt, service, body, id).Emits?
    requires ProductHandler.Update(rt, service, body, id).value.status == 201
    requires IsPlainSegment(id)
    ensures var r := ProductHandler.Update(rt, service, body, id).value;
      r.location.Some? &&
      Dispatch(Routes, GET, r.location.value) == Some(Match(FindById, map["id" := id])) &&
      Dispatch(Routes, PUT, r.location.value) == Some(Match(Update, map["id" := id]))
  {
    LocationRoutesBack(id);
  }

  /** "/api/client" matches its own pattern with no variables, and not the pattern with an id. */
  lemma CollectionMatches()
    ensures MatchPath(ClientPattern, CollectionPath) == Some(map[])
    ensures MatchPath(ClientIdPattern, CollectionPath) == None
  {
    var segments := ["", "api", "client"];
    assert Join(segments[2..]) == "client";
    assert Join(segments[1..]) == "api/client";
    assert Join(segments) == CollectionPath;
    assert NoSeparator(segments);
    SplitJoin(segments);
    assert MatchSegments(ClientPattern[2..], segments[2..]) == Some(map[]);
    assert MatchSegments(ClientPattern[1..], segments[1..]) == Some(map[]);
  }

  /** Any path that matches the collection pattern and not the id pattern is routed as the collection. */
  lemma DispatchCollection(path: string)
    requires MatchPath(ClientPattern, path) == Some(map[])
    requires MatchPath(ClientIdPattern, path) == None
    ensures Dispatch(Routes, GET, path) == Some(Match(List, map[]))
    ensures Dispatch(Routes, POST, path) == Some(Match(Create, map[]))
    ensures Dispatch(Routes, PUT, path) == None
    ensures Dispatch(Routes, DELETE, path) == None
  {
    assert Routes[1..][1..] == Routes[2..];
    assert Routes[2..][1..] == Routes[3..];
    assert Routes[3..][1..] == Routes[4..];
    assert Routes[4..][1..] == [];
    assert Dispatch(Routes[4..], POST, path) == Some(Match(Create, map[]));
    assert Dispatch(Routes[2..], POST, path) == Dispatch(Routes[4..], POST, path);
    assert Dispatch(Routes[4..], PUT, path) == None;
    assert Dispatch(Routes[2..], PUT, path) == Dispatch(Routes[4..], PUT, path);
    assert Dispatch(Routes[4..], DELETE, path) == None;
    assert Dispatch(Routes[2..], DELETE, path) == Dispatch(Routes[4..], DELETE, path);
  }

  /**
   * The collection path itself: GET goes to list and POST to create, with no
   * variables, and no other method has a route there.
   */
  lemma CollectionRoutes()
    ensures Dispatch(Routes, GET, CollectionPath) == Some(Match(List, map[]))
    ensures Dispatch(Routes, POST, CollectionPath) == Some(Match(Create, map[]))
    ensures Dispatch(Routes, PUT, CollectionPath) == None
    ensures Dispatch(Routes, DELETE, CollectionPath) == None
  {
    CollectionMatches();
    DispatchCollection(CollectionPath);
  }
}
