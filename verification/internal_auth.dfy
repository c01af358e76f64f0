/**
  Authentication of internal requests: the checks on a signed request, the payload that is
  signed, and the nonce table behind them. The legacy bearer path is not part of this model.
 */
module InternalAuth {
  import opened Prelude

  const MAX_SKEW_SECONDS := 300
  const NONCE_TTL_MS := MAX_SKEW_SECONDS * 2 * 1000

  /** The signed headers, trimmed, and the parts of the request they cover. */
  datatype Request = Request(
    timestamp: string,
    nonce: string,
    scope: string,
    signature: string,
    verb: string,
    path: string,
    body: string)

  /** HMAC-SHA256 and SHA-256 in hex, and Number() with None for what is not finite. */
  datatype Primitives = Primitives(
    hmac: (string, string) -> string,
    sha256: string -> string,
    number: string -> Option<real>)

  datatype AuthResult = Accepted(scope: string) | Refused(status: int, error: string)

  // ----- the signed payload

  function PayloadFields(timestamp: string, nonce: string, scope: string, verb: string, path: string, bodyHash: string): seq<string> {
    ["v1", timestamp, nonce, scope, Upper(verb), path, bodyHash]
  }

  function SigningPayload(timestamp: string, nonce: string, scope: string, verb: string, path: string, bodyHash: string): string {
    Join(PayloadFields(timestamp, nonce, scope, verb, path, bodyHash), '\n')
  }

  predicate OneLine(s: string) {
    '\n' !in s
  }

  lemma UpperOneLine(s: string)
    requires OneLine(s)
    ensures OneLine(Upper(s))
  {
    forall i | 0 <= i < |s|
      ensures Upper(s)[i] != '\n'
    {
      assert s[i] in s;
    }
  }

  /** A signed payload says what was signed: its lines are the fields. */
  lemma PayloadDecodes(timestamp: string, nonce: string, scope: string, verb: string, path: string, bodyHash: string)
    requires OneLine(timestamp) && OneLine(nonce) && OneLine(scope) && OneLine(verb) && OneLine(path) && OneLine(bodyHash)
    ensures Split(SigningPayload(timestamp, nonce, scope, verb, path, bodyHash), '\n')
      == ["v1", timestamp, nonce, scope, Upper(verb), path, bodyHash]
  {
    UpperOneLine(verb);
    SplitJoin(PayloadFields(timestamp, nonce, scope, verb, path, bodyHash), '\n');
  }

  predicate SingleLines(r: Request, bodyHash: string) {
    && OneLine(r.timestamp) && OneLine(r.nonce) && OneLine(r.scope)
    && OneLine(r.verb) && OneLine(r.path) && OneLine(bodyHash)
  }

  /** One signature covers one request: equal payloads have equal fields, up to the case of the verb. */
  lemma PayloadIsUnambiguous(p: Request, pHash: string, q: Request, qHash: string)
    requires SingleLines(p, pHash) && SingleLines(q, qHash)
    ensures SigningPayload(p.timestamp, p.nonce, p.scope, p.verb, p.path, pHash)
         == SigningPayload(q.timestamp, q.nonce, q.scope, q.verb, q.path, qHash)
      <==> p.timestamp == q.timestamp && p.nonce == q.nonce && p.scope == q.scope
           && Upper(p.verb) == Upper(q.verb) && p.path == q.path && pHash == qHash
  {
    PayloadDecodes(p.timestamp, p.nonce, p.scope, p.verb, p.path, pHash);
    PayloadDecodes(q.timestamp, q.nonce, q.scope, q.verb, q.path, qHash);
    var ps := PayloadFields(p.timestamp, p.nonce, p.scope, p.verb, p.path, pHash);
    var qs := PayloadFields(q.timestamp, q.nonce, q.scope, q.verb, q.path, qHash);
    if ps == qs {
      assert ps[1] == qs[1] && ps[2] == qs[2] && ps[3] == qs[3] && ps[4] == qs[4] && ps[5] == qs[5] && ps[6] == qs[6];
    }
  }

  /** With line breaks allowed in two fields the payload would not say where one ends. */
  lemma LineBreaksWouldBeAmbiguous(verb: string, path: string, bodyHash: string)
    ensures SigningPayload("1", "a\nb", "c", verb, path, bodyHash) == SigningPayload("1", "a", "b\nc", verb, path, bodyHash)
  {
    var tail := [Upper(verb), path, bodyHash];
    var t := Join(tail, '\n');
    JoinCons("c", tail);
    JoinCons("a\nb", ["c"] + tail);
    JoinCons("b\nc", tail);
    JoinCons("a", ["b\nc"] + tail);
    assert "a\nb" + ['\n'] + ("c" + ['\n'] + t) == "a" + ['\n'] + ("b\nc" + ['\n'] + t);
    var left, right := ["a\nb"] + (["c"] + tail), ["a"] + (["b\nc"] + tail);
    JoinCons("1", left);
    JoinCons("1", right);
    JoinCons("v1", ["1"] + left);
    JoinCons("v1", ["1"] + right);
    assert PayloadFields("1", "a\nb", "c", verb, path, bodyHash) == ["v1"] + (["1"] + left);
    assert PayloadFields("1", "a", "b\nc", verb, path, bodyHash) == ["v1"] + (["1"] + right);
  }

  lemma JoinCons(first: string, rest: seq<string>)
    requires rest != []
    ensures Join([first] + rest, '\n') == first + ['\n'] + Join(rest, '\n')
  {
    assert ([first] + rest)[1..] == rest;
  }

  // ----- the checks before the nonce table

  function AbsSeconds(nowMs: int, seconds: real): real {
    RealAbs(nowMs as real / 1000.0 - seconds)
  }

  predicate WithinSkew(nowMs: int, seconds: real) {
    AbsSeconds(nowMs, seconds) <= MAX_SKEW_SECONDS as real
  }

  function Payload(p: Primitives, r: Request): string {
    SigningPayload(r.timestamp, r.nonce, r.scope, r.verb, r.path, p.sha256(r.body))
  }

  /** The refusal a request meets before the nonce table is touched, if any. */
  function Precheck(p: Primitives, secret: string, expectedScope: string, r: Request, nowMs: int): Option<AuthResult> {
    if secret == "" then Some(Refused(503, "internal_auth_not_configured"))
    else if |secret| < 32 then Some(Refused(503, "internal_auth_weak_secret"))
    else if r.timestamp == "" || r.nonce == "" || r.scope == "" || r.signature == "" then
      Some(Refused(401, "missing_internal_auth_headers"))
    else if p.number(r.timestamp).None? then Some(Refused(401, "invalid_timestamp"))
    else if AbsSeconds(nowMs, p.number(r.timestamp).value) > MAX_SKEW_SECONDS as real then Some(Refused(401, "stale_timestamp"))
    else if r.scope != expectedScope then Some(Refused(403, "scope_mismatch"))
    else if p.hmac(secret, Payload(p, r)) != r.signature then Some(Refused(401, "invalid_signature"))
    else None
  }

  // ----- the nonce table

  type Nonces = map<string, int>

  function Sweep(rows: Nonces, cutoff: int): Nonces {
    map n | n in rows && !(rows[n] < cutoff) :: rows[n]
  }

  class NonceStore {
    var rows: Nonces

    constructor ()
      ensures rows == map[]
    {
      rows := map[];
    }

    method DeleteExpired(cutoff: int)
      modifies this
      ensures rows == Sweep(old(rows), cutoff)
      ensures forall n :: n in rows <==> n in old(rows) && old(rows)[n] >= cutoff
      ensures forall n :: n in rows ==> rows[n] == old(rows)[n]
    {
      rows := map n | n in rows && rows[n] >= cutoff :: rows[n];
    }

    /** Insert unless present; `inserted` says that this call inserted. */
    method InsertIfFresh(nonce: string, expiresAt: int) returns (inserted: bool)
      modifies this
      ensures inserted == (nonce !in old(rows))
      ensures rows == if inserted then old(rows)[nonce := expiresAt] else old(rows)
    {
      inserted := nonce !in rows;
      if inserted {
        rows := rows[nonce := expiresAt];
      }
    }
  }

  /** How a statement on the table can go: it is answered, it fails, or it takes effect and its answer is lost. */
  datatype Fate = Answered | Fails | Unanswered

  /** verifyInternalRequest on one process. When either statement on the table is not answered, the request is refused. */
  method VerifyInternalRequest(p: Primitives, store: NonceStore, secret: string, expectedScope: string, r: Request, nowMs: int,
                               deletion: Fate, insertion: Fate)
    returns (result: AuthResult)
    modifies store
    ensures Precheck(p, secret, expectedScope, r, nowMs).Some? ==>
      result == Precheck(p, secret, expectedScope, r, nowMs).value && store.rows == old(store.rows)
    ensures Precheck(p, secret, expectedScope, r, nowMs).None? ==>
      var swept := Sweep(old(store.rows), nowMs - 600_000);
      var inserted := if r.nonce in swept then swept else swept[r.nonce := nowMs + 600_000];
      if deletion.Fails? then result == Refused(503, "internal_auth_unavailable") && store.rows == old(store.rows)
      else if deletion.Unanswered? then result == Refused(503, "internal_auth_unavailable") && store.rows == swept
      else if insertion.Fails? then result == Refused(503, "internal_auth_unavailable") && store.rows == swept
      else if insertion.Unanswered? then result == Refused(503, "internal_auth_unavailable") && store.rows == inserted
      else if r.nonce in swept then result == Refused(401, "replayed_nonce") && store.rows == swept
      else result == Accepted(r.scope) && r.scope == expectedScope && store.rows == inserted
  {
    var refusal := Precheck(p, secret, expectedScope, r, nowMs);
    if refusal.Some? {
      return refusal.value;
    }
    if !deletion.Fails? {
      store.DeleteExpired(nowMs - NONCE_TTL_MS);
    }
    if !deletion.Answered? || insertion.Fails? {
      return Refused(503, "internal_auth_unavailable");
    }
    var inserted := store.InsertIfFresh(r.nonce, nowMs + NONCE_TTL_MS);
    if insertion.Unanswered? {
      return Refused(503, "internal_auth_unavailable");
    }
    if !inserted {
      return Refused(401, "replayed_nonce");
    }
    result := Accepted(r.scope);
  }

  /** One check and how it refuses. */
  datatype Check = Check(fails: bool, status: int, error: string)

  /** What a signature has to sign. */
  function Signed(p: Primitives, r: Request): string {
    Join(["v1", r.timestamp, r.nonce, r.scope, Upper(r.verb), r.path, p.sha256(r.body)], '\n')
  }

  predicate MoreThanFiveMinutesOff(nowMs: int, seconds: real) {
    nowMs as real < 1_000.0 * (seconds - 300.0) || 1_000.0 * (seconds + 300.0) < nowMs as real
  }

  /** The checks in the order in which they are made. */
  function Checks(p: Primitives, secret: string, expectedScope: string, r: Request, nowMs: int): seq<Check> {
    [Check(secret == "", 503, "internal_auth_not_configured"),
     Check(|secret| < 32, 503, "internal_auth_weak_secret"),
     Check(r.timestamp == "" || r.nonce == "" || r.scope == "" || r.signature == "", 401, "missing_internal_auth_headers"),
     Check(p.number(r.timestamp).None?, 401, "invalid_timestamp"),
     Check(p.number(r.timestamp).Some? && MoreThanFiveMinutesOff(nowMs, p.number(r.timestamp).value), 401, "stale_timestamp"),
     Check(r.scope != expectedScope, 403, "scope_mismatch"),
     Check(r.signature != p.hmac(secret, Signed(p, r)), 401, "invalid_signature")]
  }

  predicate FirstFailing(checks: seq<Check>, i: nat) {
    i < |checks| && checks[i].fails && forall j :: 0 <= j < i ==> !checks[j].fails
  }

  /** A request is refused with the status and the error of the first check that fails, and not before the table when none does. */
  lemma PrecheckExactly(p: Primitives, secret: string, expectedScope: string, r: Request, nowMs: int)
    ensures var checks, refusal := Checks(p, secret, expectedScope, r, nowMs), Precheck(p, secret, expectedScope, r, nowMs);
      if refusal.None? then forall i :: 0 <= i < |checks| ==> !checks[i].fails
      else exists i: nat :: FirstFailing(checks, i) && refusal == Some(Refused(checks[i].status, checks[i].error))
  {
    var checks := Checks(p, secret, expectedScope, r, nowMs);
    PayloadIs(p, r);
    if p.number(r.timestamp).Some? {
      SkewIs(nowMs, p.number(r.timestamp).value);
    }
    var i: nat :=
      if checks[0].fails then 0 else if checks[1].fails then 1 else if checks[2].fails then 2 else if checks[3].fails then 3
      else if checks[4].fails then 4 else if checks[5].fails then 5 else if checks[6].fails then 6 else 7;
    assert i < 7 ==> FirstFailing(checks, i);
  }

  lemma PayloadIs(p: Primitives, r: Request)
    ensures Payload(p, r) == Signed(p, r)
  {
  }

  lemma SkewIs(nowMs: int, seconds: real)
    ensures AbsSeconds(nowMs, seconds) > MAX_SKEW_SECONDS as real <==> MoreThanFiveMinutesOff(nowMs, seconds)
  {
  }
}
