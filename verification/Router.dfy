/** The generated prefix-tree router, with an empty server prefix and no escaped path. */
module Router {
  import opened Prelude
  import opened Ids

  datatype Operation = CreateOrder | GetOrderByUuid | CancelOrder | PayOrder

  const ORDERS := "/api/v1/orders"

  /** What `ServeHTTP` does with a request. */
  datatype Served = Handled(op: Operation, arg: string) | NotAllowed(allow: string) | NotFound

  function Verb(op: Operation): string {
    if op == GetOrderByUuid then "GET" else "POST"
  }

  /** The four path patterns of the API; the parameter is a single path segment. */
  predicate MatchesPattern(op: Operation, path: string, arg: string) {
    match op
    case CreateOrder => path == ORDERS && arg == ""
    case GetOrderByUuid => path == ORDERS + "/" + arg && '/' !in arg
    case CancelOrder => path == ORDERS + "/" + arg + "/cancel" && '/' !in arg
    case PayOrder => path == ORDERS + "/" + arg + "/pay" && '/' !in arg
  }

  predicate HasPrefix(s: string, prefix: string) {
    prefix <= s
  }

  /** `strings.IndexByte`: the first position of a character, or -1. */
  function IndexByte(s: string, c: char): (i: int)
    ensures -1 <= i < |s|
    ensures i == -1 ==> c !in s
    ensures i >= 0 ==> s[i] == c && c !in s[..i]
  {
    if s == "" then -1
    else if s[0] == c then 0
    else
      var i := IndexByte(s[1..], c);
      assert s == [s[0]] + s[1..];
      if i < 0 then -1
      else
        assert s[..i + 1] == [s[0]] + s[1..][..i];
        i + 1
  }

  /** The segment up to the next '/', and the rest. */
  function CutSegment(s: string): (r: (string, string))
    ensures s == r.0 + r.1 && '/' !in r.0
    ensures r.1 == "" || r.1[0] == '/'
  {
    var i := IndexByte(s, '/');
    var n := if i < 0 then |s| else i;
    assert i < 0 ==> s[..n] == s;
    (s[..n], s[n..])
  }

  /** The operation a path belongs to and its argument. */
  function Resource(path: string): Option<(Operation, string)> {
    if !HasPrefix(path, ORDERS) then None
    else
      var rest := path[|ORDERS|..];
      if rest == "" then Some((CreateOrder, ""))
      else if rest[0] != '/' then None
      else
        var (arg, tail) := CutSegment(rest[1..]);
        Below(arg, tail)
  }

  /** The operation below one order, from what follows its segment. */
  function Below(arg: string, tail: string): Option<(Operation, string)> {
    if tail == "" then Some((GetOrderByUuid, arg))
    else if tail == "/cancel" then Some((CancelOrder, arg))
    else if tail == "/pay" then Some((PayOrder, arg))
    else None
  }

  lemma SegmentIsNotShorter(a: string, b: string, x: string, y: string)
    requires a + x == b + y && '/' !in b && (x == "" || x[0] == '/')
    ensures |a| >= |b|
  {
    assert forall i :: 0 <= i < |b| ==> (b + y)[i] == b[i] && b[i] in b;
    if x != "" {
      assert (a + x)[|a|] == '/';
    }
    assert |a + x| == |b + y|;
  }

  lemma SegmentIsUnique(a: string, b: string, x: string, y: string)
    requires a + x == b + y && '/' !in a && '/' !in b
    requires (x == "" || x[0] == '/') && (y == "" || y[0] == '/')
    ensures a == b && x == y
  {
    SegmentIsNotShorter(a, b, x, y);
    SegmentIsNotShorter(b, a, y, x);
    assert a == (a + x)[..|a|] && b == (b + y)[..|b|];
    assert x == (a + x)[|a|..] && y == (b + y)[|b|..];
  }

  function Tail(op: Operation): string {
    match op
    case CancelOrder => "/cancel"
    case PayOrder => "/pay"
    case _ => ""
  }

  /** The path of an operation with an argument, as prefix, slash, segment and tail. */
  lemma PatternParts(op: Operation, path: string, arg: string)
    requires op != CreateOrder
    ensures MatchesPattern(op, path, arg) <==> path == ORDERS + ("/" + (arg + Tail(op))) && '/' !in arg
  {
    assert ORDERS + "/" + arg + Tail(op) == ORDERS + ("/" + (arg + Tail(op)));
    assert ORDERS + "/" + arg == ORDERS + "/" + arg + "";
  }

  /** The tree finds an operation and argument exactly when the path has that pattern. */
  lemma ResourceMeaning(path: string, op: Operation, arg: string)
    ensures Resource(path) == Some((op, arg)) <==> MatchesPattern(op, path, arg)
  {
    if MatchesPattern(op, path, arg) {
      PatternHasResource(path, op, arg);
    }
    if Resource(path) == Some((op, arg)) {
      ResourceHasPattern(path, op, arg);
    }
  }

  lemma PatternHasResource(path: string, op: Operation, arg: string)
    requires MatchesPattern(op, path, arg)
    ensures Resource(path) == Some((op, arg))
  {
    if op == CreateOrder {
      assert path[|ORDERS|..] == "";
    } else {
      PatternParts(op, path, arg);
      var rest := path[|ORDERS|..];
      assert rest == "/" + (arg + Tail(op));
      assert rest[1..] == arg + Tail(op);
      var (a, t) := CutSegment(rest[1..]);
      SegmentIsUnique(a, arg, t, Tail(op));
    }
  }

  lemma ResourceHasPattern(path: string, op: Operation, arg: string)
    requires Resource(path) == Some((op, arg))
    ensures MatchesPattern(op, path, arg)
  {
    var rest := path[|ORDERS|..];
    assert path == ORDERS + rest;
    if op != CreateOrder {
      var (a, t) := CutSegment(rest[1..]);
      assert rest == "/" + rest[1..];
      assert t == Tail(op) && a == arg;
      PatternParts(op, path, arg);
    }
  }

  /** What a request gets, from its verb and the operation its path belongs to. */
  function ServedBy(verb: string, resource: Option<(Operation, string)>): Served {
    match resource
    case None => NotFound
    case Some((op, arg)) => if verb == Verb(op) then Handled(op, arg) else NotAllowed(Verb(op))
  }

  /** What the patterns promise: the handler of the one matching operation, and only for its verb. */
  lemma ServedExactly(verb: string, path: string, op: Operation, arg: string)
    ensures ServedBy(verb, Resource(path)) == Handled(op, arg) <==> MatchesPattern(op, path, arg) && verb == Verb(op)
    ensures MatchesPattern(op, path, arg) && verb != Verb(op) ==> ServedBy(verb, Resource(path)) == NotAllowed(Verb(op))
  {
    ResourceMeaning(path, op, arg);
  }

  /** The API in full: what is served for which verb and path, and which verb a refused request may use. */
  lemma RoutesExactly(verb: string, path: string, arg: string)
    ensures var served, one := ServedBy(verb, Resource(path)), "/api/v1/orders/" + arg;
            && (served == Handled(CreateOrder, arg) <==> verb == "POST" && path == "/api/v1/orders" && arg == "")
            && (served == Handled(GetOrderByUuid, arg) <==> verb == "GET" && path == one && '/' !in arg)
            && (served == Handled(CancelOrder, arg) <==> verb == "POST" && path == one + "/cancel" && '/' !in arg)
            && (served == Handled(PayOrder, arg) <==> verb == "POST" && path == one + "/pay" && '/' !in arg)
            && ('/' !in arg && path == one && verb != "GET" ==> served == NotAllowed("GET"))
            && (path == "/api/v1/orders" && verb != "POST" ==> served == NotAllowed("POST"))
            && ('/' !in arg && (path == one + "/cancel" || path == one + "/pay") && verb != "POST" ==>
                  served == NotAllowed("POST"))
  {
    assert ORDERS + "/" == "/api/v1/orders/";
    ServedExactly(verb, path, CreateOrder, "");
    ServedExactly(verb, path, CreateOrder, arg);
    ServedExactly(verb, path, GetOrderByUuid, arg);
    ServedExactly(verb, path, CancelOrder, arg);
    ServedExactly(verb, path, PayOrder, arg);
  }

  /** A path is not found exactly when no pattern has it. */
  lemma NotFoundExactly(verb: string, path: string)
    ensures ServedBy(verb, Resource(path)) == NotFound <==> forall op, arg :: !MatchesPattern(op, path, arg)
  {
    if Resource(path).Some? {
      ResourceMeaning(path, Resource(path).value.0, Resource(path).value.1);
    } else {
      forall op, arg ensures !MatchesPattern(op, path, arg) {
        ResourceMeaning(path, op, arg);
      }
    }
  }

  /** The last level of the server's tree, after the '/' that ends the order's segment. */
  method ServeBelow(verb: string, arg: string, rest: string) returns (r: Served)
    ensures r == ServedBy(verb, Below(arg, "/" + rest))
  {
    var elem := rest;
    assert ("/" + rest)[1..] == rest && "/cancel"[1..] == "cancel" && "/pay"[1..] == "pay";
    if |elem| == 0 {
      return NotFound;
    }
    if elem[0] == 'c' {
      if !HasPrefix(elem, "cancel") {
        return NotFound;
      }
      elem := elem[|"cancel"|..];
      assert rest == "cancel" + elem;
      if |elem| == 0 {
        return if verb == "POST" then Handled(CancelOrder, arg) else NotAllowed("POST");
      }
    } else if elem[0] == 'p' {
      if !HasPrefix(elem, "pay") {
        return NotFound;
      }
      elem := elem[|"pay"|..];
      assert rest == "pay" + elem;
      if |elem| == 0 {
        return if verb == "POST" then Handled(PayOrder, arg) else NotAllowed("POST");
      }
    }
    r := NotFound;
  }

  /** Matches the parameter up to the next '/'. */
  method Match(elem: string) returns (arg: string, rest: string)
    ensures (arg, rest) == CutSegment(elem)
  {
    var idx := IndexByte(elem, '/');
    if idx < 0 {
      idx := |elem|;
    }
    arg := elem[..idx];
    rest := elem[idx..];
  }

  /** The server's router, which shrinks the path prefix by prefix. */
  method ServeHTTP(verb: string, path: string) returns (r: Served)
    ensures r == ServedBy(verb, Resource(path))
  {
    var elem := path;
    if |elem| == 0 {
      return NotFound;
    }
    if !HasPrefix(elem, ORDERS) {
      return NotFound;
    }
    elem := elem[|ORDERS|..];
    if |elem| == 0 {
      return if verb == "POST" then Handled(CreateOrder, "") else NotAllowed("POST");
    }
    if elem[0] != '/' {
      return NotFound;
    }
    elem := elem[1..];
    var arg;
    arg, elem := Match(elem);
    assert Resource(path) == Below(arg, elem);
    if |elem| == 0 {
      return if verb == "GET" then Handled(GetOrderByUuid, arg) else NotAllowed("GET");
    }
    assert elem == "/" + elem[1..];
    r := ServeBelow(verb, arg, elem[1..]);
  }

  /** The last level of the lookup's tree. */
  method FindBelow(verb: string, arg: string, rest: string) returns (r: Option<(Operation, string)>)
    ensures r == Found(ServedBy(verb, Below(arg, "/" + rest)))
  {
    var elem := rest;
    assert ("/" + rest)[1..] == rest && "/cancel"[1..] == "cancel" && "/pay"[1..] == "pay";
    if |elem| == 0 {
      return None;
    }
    if elem[0] == 'c' && HasPrefix(elem, "cancel") {
      elem := elem[|"cancel"|..];
      assert rest == "cancel" + elem;
      if |elem| == 0 {
        return if verb == "POST" then Some((CancelOrder, arg)) else None;
      }
    } else if elem[0] == 'p' && HasPrefix(elem, "pay") {
      elem := elem[|"pay"|..];
      assert rest == "pay" + elem;
      if |elem| == 0 {
        return if verb == "POST" then Some((PayOrder, arg)) else None;
      }
    }
    r := None;
  }

  function Found(s: Served): Option<(Operation, string)> {
    match s
    case Handled(op, arg) => Some((op, arg))
    case _ => None
  }

  /** The route lookup, the same tree written a second time; it reports nothing for a wrong verb. */
  method FindPath(verb: string, path: string) returns (r: Option<(Operation, string)>)
    ensures r == Found(ServedBy(verb, Resource(path)))
  {
    var elem := path;
    if |elem| == 0 || !HasPrefix(elem, ORDERS) {
      return None;
    }
    elem := elem[|ORDERS|..];
    if |elem| == 0 {
      return if verb == "POST" then Some((CreateOrder, "")) else None;
    }
    if elem[0] != '/' {
      return None;
    }
    elem := elem[1..];
    var arg;
    arg, elem := Match(elem);
    if |elem| == 0 {
      return if verb == "GET" then Some((GetOrderByUuid, arg)) else None;
    }
    assert elem == "/" + elem[1..];
    r := FindBelow(verb, arg, elem[1..]);
  }

  // ----- The client -----

  /** The path the client builds; the text of an id needs no escaping. */
  function ClientPath(op: Operation, id: Uuid): string {
    match op
    case CreateOrder => "/api/v1/orders"
    case GetOrderByUuid => "/api/v1/orders/" + Text(id)
    case CancelOrder => "/api/v1/orders/" + Text(id) + "/cancel"
    case PayOrder => "/api/v1/orders/" + Text(id) + "/pay"
  }

  /** The client's request for an operation is handled by that operation, with the same id, and by no other. */
  lemma ClientReachesServer(op: Operation, id: Uuid)
    ensures ServedBy(Verb(op), Resource(ClientPath(op, id))) == Handled(op, if op == CreateOrder then "" else Text(id))
  {
    TextHasNoSlash(id);
    assert ORDERS + "/" == "/api/v1/orders/";
    ServedExactly(Verb(op), ClientPath(op, id), op, if op == CreateOrder then "" else Text(id));
  }

  lemma ClientPathsIdentifyOrders(op: Operation, id: Uuid, op': Operation, id': Uuid)
    requires op != CreateOrder && ClientPath(op, id) == ClientPath(op', id')
    ensures op == op' && id == id'
  {
    ClientReachesServer(op, id);
    ClientReachesServer(op', id');
    ServedExactly(Verb(op), ClientPath(op, id), op, Text(id));
    ServedExactly(Verb(op'), ClientPath(op', id'), op', if op' == CreateOrder then "" else Text(id'));
    assert op == op' && Text(id) == Text(id');
    TextInjective(id, id');
  }
}
