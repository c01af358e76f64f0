/**
  The two transports a job handler is given. The ordinary one dies with the execution
  signal; the Meta compensation one survives it but lets only a pause through.
 */
module GuardedFetch {
  import opened Prelude

  /** A URL after parsing; the parser itself is not modelled. */
  datatype Url = Url(protocol: string, hostname: string, pathname: string, search: string, params: seq<(string, string)>)

  datatype Target = Address(url: Url) | Unparsable | RequestObject

  datatype JsonValue = JsonString(text: string) | OtherValue

  /** The init body: none, a string that parses to an object, any other string, or not a string. */
  datatype Body = NoBody | ObjectText(fields: map<string, JsonValue>) | OtherText | Binary

  datatype Request = Request(target: Target, verb: Option<string>, body: Body, hasSignal: bool)

  datatype Signal = Execution | Own | RequestTimeout

  /** What reaches the underlying fetch: the request, the signals that can stop it, and its redirect mode. */
  datatype Outgoing = Outgoing(request: Request, signals: set<Signal>, failsOnRedirect: bool)

  // ----- createLeaseGuardedFetch

  function LeaseGuardedFetch(aborted: bool, r: Request): Option<Outgoing> {
    if aborted then None
    else Some(Outgoing(r, if r.hasSignal then {Execution, Own} else {Execution}, false))
  }

  // ----- createMetaActivationCompensationFetch

  predicate Digits(s: string) {
    s != "" && forall c :: c in s ==> '0' <= c <= '9'
  }

  /** The letter v, digits, a full stop, digits. */
  predicate IsApiVersion(s: string) {
    && s != "" && s[0] == 'v'
    && var parts := Split(s[1..], '.');
       |parts| == 2 && Digits(parts[0]) && Digits(parts[1])
  }

  function NonEmpty(parts: seq<string>): seq<string> {
    if parts == [] then []
    else if parts[0] == "" then NonEmpty(parts[1..])
    else [parts[0]] + NonEmpty(parts[1..])
  }

  predicate TargetsMetaObject(u: Url) {
    var parts := NonEmpty(Split(u.pathname, '/'));
    && u.protocol == "https:"
    && u.hostname == "graph.facebook.com"
    && |parts| == 2
    && IsApiVersion(parts[0])
    && Digits(parts[1])
  }

  function Method(r: Request): string {
    Upper(match r.verb case Some(v) => v case None => "GET")
  }

  const STATUS_FIELDS := "configured_status,effective_status,status"

  function Permitted(r: Request): bool {
    if r.target.Address? then
      var u := r.target.url;
      if TargetsMetaObject(u) && Method(r) == "POST" && u.search == "" && (r.body.ObjectText? || r.body.OtherText?) then
        r.body.ObjectText? && |r.body.fields.Keys| == 1 && "status" in r.body.fields
          && r.body.fields["status"] == JsonString("PAUSED")
      else if TargetsMetaObject(u) && Method(r) == "GET" && r.body.NoBody? then
        |u.params| == 1 && u.params[0] == ("fields", STATUS_FIELDS)
      else false
    else false
  }

  function CompensationFetch(r: Request): Option<Outgoing> {
    if Permitted(r) then
      Some(Outgoing(r, if r.hasSignal then {Own, RequestTimeout} else {RequestTimeout}, true))
    else None
  }

  // ----- the handler's execution context

  datatype Transport = Ordinary | Compensation

  predicate PublishKind(kind: string) {
    kind == "publish.meta.execute" || kind == "publish.meta.mutate"
  }

  /** One request a handler starts through its context. */
  function HandlerFetch(kind: string, aborted: bool, transport: Transport, r: Request): Option<Outgoing> {
    match transport
    case Ordinary => LeaseGuardedFetch(aborted, r)
    case Compensation => if PublishKind(kind) then CompensationFetch(r) else None
  }

  // ----- which address is a Graph object's

  predicate Numeral(s: string) {
    s != "" && forall i :: 0 <= i < |s| ==> '0' <= s[i] <= '9'
  }

  predicate Slashes(s: string) {
    forall i :: 0 <= i < |s| ==> s[i] == '/'
  }

  /** A version such as v21.0. */
  function Version(major: string, minor: string): string {
    "v" + major + "." + minor
  }

  /** Two segments, with slashes around them. */
  function Path(before: string, first: string, between: string, second: string, after: string): string {
    before + (first + (between + (second + after)))
  }

  predicate ObjectParts(path: string, before: string, major: string, minor: string, between: string, number: string, after: string) {
    && Slashes(before) && Slashes(after) && Slashes(between) && between != ""
    && Numeral(major) && Numeral(minor) && Numeral(number)
    && path == Path(before, Version(major, minor), between, number, after)
  }

  /** A version and a number, with slashes between and perhaps around them. */
  ghost predicate ObjectPath(path: string) {
    exists before, major, minor, between, number, after :: ObjectParts(path, before, major, minor, between, number, after)
  }

  ghost predicate GraphObject(u: Url) {
    u.protocol == "https:" && u.hostname == "graph.facebook.com" && ObjectPath(u.pathname)
  }

  lemma {:induction false} JoinSplit(s: string, sep: char)
    ensures Join(Split(s, sep), sep) == s
    ensures forall p :: p in Split(s, sep) ==> sep !in p
  {
    if s != "" {
      var rest := Split(s[1..], sep);
      JoinSplit(s[1..], sep);
      if s[0] == sep {
        assert ([""] + rest)[1..] == rest;
      } else {
        assert ([[s[0]] + rest[0]] + rest[1..])[1..] == rest[1..];
        assert [s[0]] + s[1..] == s;
      }
    }
  }

  lemma NumeralsAreDigits(s: string)
    ensures Numeral(s) <==> Digits(s)
    ensures Numeral(s) ==> s != "" && '/' !in s && '.' !in s
  {
    forall i | 0 <= i < |s|
      ensures s[i] in s
    {
    }
  }

  lemma VersionIs(major: string, minor: string)
    requires Numeral(major) && Numeral(minor)
    ensures IsApiVersion(Version(major, minor)) && '/' !in Version(major, minor)
  {
    var s := Version(major, minor);
    NumeralsAreDigits(major);
    NumeralsAreDigits(minor);
    assert s[1..] == major + (['.'] + minor);
    SplitPrefix(major, minor, '.');
    SplitPlain(minor, '.');
  }

  lemma VersionParts(s: string) returns (major: string, minor: string)
    requires IsApiVersion(s)
    ensures Numeral(major) && Numeral(minor) && s == Version(major, minor)
  {
    var parts := Split(s[1..], '.');
    JoinSplit(s[1..], '.');
    major, minor := parts[0], parts[1];
    NumeralsAreDigits(major);
    NumeralsAreDigits(minor);
    assert parts[1..] == [minor];
    assert s[1..] == major + ['.'] + minor;
    assert s == "v" + s[1..];
  }

  /** Slashes at the front make no segment. */
  lemma {:induction false} LeadingSlashes(before: string, rest: string)
    requires Slashes(before)
    ensures NonEmpty(Split(before + rest, '/')) == NonEmpty(Split(rest, '/'))
  {
    if before == "" {
      assert before + rest == rest;
    } else {
      assert (before + rest)[1..] == before[1..] + rest;
      LeadingSlashes(before[1..], rest);
    }
  }

  /** A piece without a slash, up to a slash or the end, is a segment. */
  lemma FirstSegment(piece: string, rest: string)
    requires piece != "" && '/' !in piece && (rest == "" || rest[0] == '/')
    ensures NonEmpty(Split(piece + rest, '/')) == [piece] + NonEmpty(Split(rest, '/'))
  {
    if rest == "" {
      SplitPlain(piece, '/');
      assert piece + rest == piece;
      assert NonEmpty([piece]) == [piece];
    } else {
      SplitPrefix(piece, rest[1..], '/');
      assert ['/'] + rest[1..] == rest;
      assert ([piece] + Split(rest[1..], '/'))[1..] == Split(rest[1..], '/');
    }
  }

  /** The slashes at the front of a path, and what follows them. */
  lemma {:induction false} AfterSlashes(path: string) returns (before: string, rest: string)
    ensures path == before + rest && Slashes(before) && (rest == "" || rest[0] != '/')
  {
    if path != "" && path[0] == '/' {
      before, rest := AfterSlashes(path[1..]);
      before := "/" + before;
    } else {
      before, rest := "", path;
    }
  }

  /** The piece at the front of a path, up to a slash or the end. */
  lemma {:induction false} UpToSlash(path: string) returns (piece: string, rest: string)
    ensures path == piece + rest && '/' !in piece && (rest == "" || rest[0] == '/')
    ensures path != "" && path[0] != '/' ==> piece != ""
  {
    if path == "" || path[0] == '/' {
      piece, rest := "", path;
    } else {
      piece, rest := UpToSlash(path[1..]);
      piece := [path[0]] + piece;
    }
  }

  /** A path with a segment starts with slashes, that segment, and a slash or the end. */
  lemma HasSegment(path: string) returns (before: string, piece: string, rest: string)
    requires NonEmpty(Split(path, '/')) != []
    ensures path == before + (piece + rest) && Slashes(before) && '/' !in piece && (rest == "" || rest[0] == '/')
    ensures piece != "" && NonEmpty(Split(path, '/')) == [piece] + NonEmpty(Split(rest, '/'))
  {
    var tail;
    before, tail := AfterSlashes(path);
    LeadingSlashes(before, tail);
    piece, rest := UpToSlash(tail);
    FirstSegment(piece, rest);
  }

  lemma OnlySlashes(path: string)
    ensures Slashes(path) <==> NonEmpty(Split(path, '/')) == []
  {
    if Slashes(path) {
      LeadingSlashes(path, "");
      assert path + "" == path;
    } else if NonEmpty(Split(path, '/')) == [] {
      var before, rest := AfterSlashes(path);
      var piece, more := UpToSlash(rest);
      LeadingSlashes(before, rest);
      FirstSegment(piece, more);
    }
  }

  lemma SegmentsOf(before: string, version: string, between: string, number: string, after: string)
    requires Slashes(before) && Slashes(between) && between != "" && Slashes(after)
    requires version != "" && '/' !in version && number != "" && '/' !in number
    ensures NonEmpty(Split(Path(before, version, between, number, after), '/')) == [version, number]
  {
    LeadingSlashes(before, version + (between + (number + after)));
    assert (between + (number + after))[0] == '/';
    FirstSegment(version, between + (number + after));
    LeadingSlashes(between, number + after);
    FirstSegment(number, after);
    OnlySlashes(after);
  }

  /** The two segments that the check asks for. */
  predicate ObjectSegments(parts: seq<string>) {
    |parts| == 2 && IsApiVersion(parts[0]) && Digits(parts[1])
  }

  /** Two segments, and the slashes around them. */
  lemma TwoSegments(path: string, first: string, second: string) returns (before: string, between: string, after: string)
    requires NonEmpty(Split(path, '/')) == [first, second]
    ensures Slashes(before) && Slashes(between) && between != "" && Slashes(after)
    ensures path == Path(before, first, between, second, after)
  {
    var version, tail, number;
    before, version, tail := HasSegment(path);
    assert NonEmpty(Split(tail, '/')) == [first, second][1..] == [second];
    between, number, after := HasSegment(tail);
    assert NonEmpty(Split(after, '/')) == [second][1..] == [];
    OnlySlashes(after);
    assert ([version] + [second])[0] == version && ([number] + NonEmpty(Split(after, '/')))[0] == number;
    assert tail != "" && tail[0] == '/';
  }

  lemma SegmentsMakePath(path: string)
    requires ObjectSegments(NonEmpty(Split(path, '/')))
    ensures ObjectPath(path)
  {
    var parts := NonEmpty(Split(path, '/'));
    var version, number := parts[0], parts[1];
    var before, between, after := TwoSegments(path, version, number);
    var major, minor := VersionParts(version);
    NumeralsAreDigits(number);
    assert ObjectParts(path, before, major, minor, between, number, after);
  }

  lemma PartsMakeSegments(path: string, before: string, major: string, minor: string, between: string, number: string, after: string)
    requires ObjectParts(path, before, major, minor, between, number, after)
    ensures ObjectSegments(NonEmpty(Split(path, '/')))
  {
    VersionIs(major, minor);
    NumeralsAreDigits(number);
    var version := Version(major, minor);
    SegmentsOf(before, version, between, number, after);
    assert NonEmpty(Split(path, '/')) == [version, number];
  }

  lemma PathMakesSegments(path: string)
    requires ObjectPath(path)
    ensures ObjectSegments(NonEmpty(Split(path, '/')))
  {
    var before, major, minor, between, number, after :| ObjectParts(path, before, major, minor, between, number, after);
    PartsMakeSegments(path, before, major, minor, between, number, after);
  }

  /** The check on the address admits exactly the Graph objects. */
  lemma TargetExactly(u: Url)
    ensures TargetsMetaObject(u) <==> GraphObject(u)
  {
    if ObjectPath(u.pathname) {
      PathMakesSegments(u.pathname);
    }
    if ObjectSegments(NonEmpty(Split(u.pathname, '/'))) {
      SegmentsMakePath(u.pathname);
    }
    assert TargetsMetaObject(u) <==>
      u.protocol == "https:" && u.hostname == "graph.facebook.com" && ObjectSegments(NonEmpty(Split(u.pathname, '/')));
  }

  // ----- what goes out

  /** The method, read without regard to case; GET when there is none. */
  predicate Verb(r: Request, verb: string) {
    match r.verb
    case None => verb == "GET"
    case Some(v) => |v| == |verb| && forall i :: 0 <= i < |v| ==> UpperChar(v[i]) == verb[i]
  }

  lemma VerbExactly(r: Request, verb: string)
    ensures Method(r) == verb <==> if r.verb.None? then verb == "GET" else Verb(r, verb)
  {
    if r.verb.Some? && Verb(r, verb) {
      assert Upper(r.verb.value) == verb;
    } else if r.verb.None? {
      assert Upper("GET") == "GET";
    }
  }

  /** A write whose whole body is the one field status, set to PAUSED, on one Graph object. */
  ghost predicate PauseWrite(r: Request) {
    && r.target.Address? && GraphObject(r.target.url) && r.target.url.search == ""
    && Verb(r, "POST")
    && r.body == ObjectText(map["status" := JsonString("PAUSED")])
  }

  /** A read of nothing but the three status fields of one Graph object. */
  ghost predicate StatusRead(r: Request) {
    && r.target.Address? && GraphObject(r.target.url)
    && r.target.url.params == [("fields", "configured_status,effective_status,status")]
    && Verb(r, "GET")
    && r.body == NoBody
  }

  lemma SingletonKeys(m: map<string, JsonValue>, k: string)
    requires k in m && |m.Keys| == 1
    ensures m == map[k := m[k]]
  {
    assert |m.Keys - {k}| == 0;
    assert m.Keys == (m.Keys - {k}) + {k};
  }

  /** The transport check admits exactly the pause and the read that verifies it. */
  lemma PermittedExactly(r: Request)
    ensures Permitted(r) <==> PauseWrite(r) || StatusRead(r)
  {
    if r.target.Address? {
      TargetExactly(r.target.url);
    }
    VerbExactly(r, "POST");
    VerbExactly(r, "GET");
    if Permitted(r) && r.body.ObjectText? {
      SingletonKeys(r.body.fields, "status");
    }
    if PauseWrite(r) {
      assert map["status" := JsonString("PAUSED")].Keys == {"status"};
    }
  }

  /** A job of this kind writes to Meta. */
  predicate Publishes(kind: string) {
    kind in {"publish.meta.execute", "publish.meta.mutate"}
  }

  /**
    A request of a handler goes out if and only if it uses the ordinary transport before the abort, or
    the compensation transport of a publish job for a pause or its status read. It goes out as it is;
    the abort stops it exactly on the ordinary transport; the other one bounds it in time and refuses
    redirects; and a signal of its own is kept on both.
   */
  lemma GoesOutExactly(kind: string, aborted: bool, transport: Transport, r: Request)
    ensures var o := HandlerFetch(kind, aborted, transport, r);
      && (o.Some? <==>
            || (transport == Ordinary && !aborted)
            || (transport == Compensation && Publishes(kind) && (PauseWrite(r) || StatusRead(r))))
      && (o.Some? ==>
            && o.value.request == r
            && (Execution in o.value.signals <==> transport == Ordinary)
            && (RequestTimeout in o.value.signals <==> transport == Compensation)
            && (Own in o.value.signals <==> r.hasSignal)
            && (o.value.failsOnRedirect <==> transport == Compensation))
  {
    PermittedExactly(r);
  }

  /** So after the abort only pauses and their status reads go out. */
  lemma AfterAbortOnlyPause(kind: string, transport: Transport, r: Request)
    ensures HandlerFetch(kind, true, transport, r).Some?
      <==> transport == Compensation && Publishes(kind) && (PauseWrite(r) || StatusRead(r))
  {
    GoesOutExactly(kind, true, transport, r);
  }
}
