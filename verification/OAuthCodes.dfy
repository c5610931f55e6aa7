/** Authorization codes (internal/gateway/oauth.go): issue, exchange and expiry, for the authorization code
    grant of section 4.1 of RFC 6749 with PKCE as in section 4.6 of RFC 7636. */
module OAuthCodes {
  import opened Common

  const MAX_CODES: nat := 2048
  /** Five minutes in nanoseconds. */
  const CODE_TTL: nat := 300_000_000_000

  type Code = string

  datatype Grant = Grant(clientId: string, redirectUri: string, challenge: string, createdAt: nat)
  type Codes = map<Code, Grant>

  /** What the authorization endpoint binds a code to; the code is drawn and the clock read before the lock is taken. */
  datatype IssueRequest = IssueRequest(code: Code, clientId: string, redirectUri: string, challenge: string,
      createdAt: nat)

  /** A token request; `signs` says whether signing the token succeeds. */
  datatype ExchangeRequest = ExchangeRequest(code: Code, clientId: string, redirectUri: string, verifier: string,
      signs: bool)

  /** `s256` stands for the base64url text of the SHA-256 digest. */
  type Digest = string -> string

  predicate Expired(g: Grant, now: nat) {
    g.createdAt + CODE_TTL < now
  }

  /** pruneCodesLocked at time `now`: codes older than five minutes go. */
  function Prune(codes: Codes, now: nat): Codes {
    map code | code in codes && !Expired(codes[code], now) :: codes[code]
  }

  function Issue(codes: Codes, q: IssueRequest, now: nat): (Codes, bool) {
    var live := Prune(codes, now);
    if |live| >= MAX_CODES then (live, false)
    else (live[q.code := Grant(q.clientId, q.redirectUri, q.challenge, q.createdAt)], true)
  }

  predicate Matches(s256: Digest, g: Grant, q: ExchangeRequest) {
    g.clientId == q.clientId && g.redirectUri == q.redirectUri && g.challenge == s256(q.verifier)
  }

  /** The grant a token is issued for, if one is. */
  function Exchange(s256: Digest, codes: Codes, q: ExchangeRequest, now: nat): (Codes, Option<Grant>) {
    var live := Prune(codes, now);
    if q.code !in live || !Matches(s256, live[q.code], q) || !q.signs then (live, None)
    else (live - {q.code}, Some(live[q.code]))
  }

  // ----- Runs

  datatype Event = Tick(elapsed: nat) | Issuing(issue: IssueRequest) | Exchanging(exchange: ExchangeRequest)

  /** A token that was handed out. */
  datatype Token = Token(request: ExchangeRequest, grant: Grant, at: nat)

  /** `issued` and `tokens` are history: every code put into the table with its grant, and every token. */
  datatype Server = Server(codes: Codes, now: nat, issued: Codes, tokens: seq<Token>)

  function Handle(s256: Digest, s: Server, e: Event): Server {
    match e
    case Tick(elapsed) => s.(now := s.now + elapsed)
    case Issuing(q) =>
      var (codes, ok) := Issue(s.codes, q, s.now);
      s.(codes := codes,
         issued := if ok then s.issued[q.code := Grant(q.clientId, q.redirectUri, q.challenge, q.createdAt)]
             else s.issued)
    case Exchanging(q) =>
      var (codes, g) := Exchange(s256, s.codes, q, s.now);
      s.(codes := codes, tokens := if g.Some? then s.tokens + [Token(q, g.value, s.now)] else s.tokens)
  }

  function HandleAll(s256: Digest, events: seq<Event>): Server {
    if events == [] then Server(map[], 0, map[], [])
    else Handle(s256, HandleAll(s256, events[..|events| - 1]), events[|events| - 1])
  }

  /** The random source never repeats a code. */
  ghost predicate FreshCodes(events: seq<Event>) {
    forall i, j :: 0 <= i < j < |events| && events[i].Issuing? && events[j].Issuing? ==>
        events[i].issue.code != events[j].issue.code
  }

  ghost predicate UsedUp(s: Server, code: Code) {
    exists k :: 0 <= k < |s.tokens| && s.tokens[k].request.code == code
  }

  /** An issued code leaves the table only by expiring or by being exchanged. */
  ghost predicate Accounted(s: Server, code: Code)
    requires code in s.issued
  {
    (code in s.codes && s.codes[code] == s.issued[code]) || Expired(s.issued[code], s.now) || UsedUp(s, code)
  }

  ghost predicate TableOk(s: Server) {
    && |s.codes| <= MAX_CODES
    && (forall code :: code in s.codes ==> code in s.issued && s.issued[code] == s.codes[code])
  }

  ghost predicate AccountsOk(s: Server) {
    forall code {:trigger Accounted(s, code)} :: code in s.issued ==> Accounted(s, code)
  }

  ghost predicate IssuedOk(s: Server, events: seq<Event>) {
    forall code :: code in s.issued ==>
        exists i :: 0 <= i < |events| && events[i].Issuing? && events[i].issue.code == code
  }

  ghost predicate TokensOk(s256: Digest, s: Server) {
    && (forall k {:trigger TokenOk(s256, s, s.tokens[k])} :: 0 <= k < |s.tokens| ==> TokenOk(s256, s, s.tokens[k]))
    && (forall k, l :: 0 <= k < l < |s.tokens| ==> s.tokens[k].request.code != s.tokens[l].request.code)
  }

  ghost predicate Inv(s256: Digest, s: Server, events: seq<Event>) {
    TableOk(s) && AccountsOk(s) && IssuedOk(s, events) && TokensOk(s256, s)
  }

  /** A token that was given for a code that had been issued for exactly this client, redirect URI and verifier,
      no more than five minutes earlier, and that can never be exchanged again. */
  ghost predicate TokenOk(s256: Digest, s: Server, t: Token) {
    && t.request.code in s.issued && s.issued[t.request.code] == t.grant
    && Matches(s256, t.grant, t.request)
    && t.at <= t.grant.createdAt + CODE_TTL
    && t.request.code !in s.codes
  }

  lemma PruneSmaller(codes: Codes, now: nat)
    ensures |Prune(codes, now)| <= |codes|
  {
    SubsetSize(Prune(codes, now).Keys, codes.Keys);
    assert |Prune(codes, now)| == |Prune(codes, now).Keys| && |codes| == |codes.Keys|;
  }

  /** Earlier events still account for the codes issued before. */
  lemma StillIssued(s: Server, events: seq<Event>, e: Event)
    requires IssuedOk(s, events)
    ensures IssuedOk(s, events + [e])
  {
    forall code | code in s.issued
      ensures exists i :: 0 <= i < |events + [e]| && (events + [e])[i].Issuing? && (events + [e])[i].issue.code == code
    {
      var i :| 0 <= i < |events| && events[i].Issuing? && events[i].issue.code == code;
      assert (events + [e])[i] == events[i];
    }
  }

  lemma TableStep(s256: Digest, s: Server, e: Event)
    requires TableOk(s)
    ensures TableOk(Handle(s256, s, e))
  {
    PruneSmaller(s.codes, s.now);
    if e.Exchanging? {
      var s' := Handle(s256, s, e);
      SubsetSize(s'.codes.Keys, Prune(s.codes, s.now).Keys);
      assert |s'.codes| == |s'.codes.Keys|;
    }
  }

  lemma AccountStep(s256: Digest, s: Server, e: Event)
    requires TableOk(s) && AccountsOk(s) && (e.Issuing? ==> e.issue.code !in s.issued)
    ensures AccountsOk(Handle(s256, s, e))
  {
    var s' := Handle(s256, s, e);
    forall code | code in s'.issued ensures Accounted(s', code) {
      if code in s.issued {
        assert Accounted(s, code);
        if UsedUp(s, code) {
          var k :| 0 <= k < |s.tokens| && s.tokens[k].request.code == code;
          assert s'.tokens[k] == s.tokens[k];
        } else if code in s.codes && code !in s'.codes && !Expired(s.issued[code], s.now) {
          assert s'.tokens[|s.tokens|].request.code == code;
        }
      }
    }
  }

  lemma TokenStep(s256: Digest, s: Server, e: Event)
    requires TableOk(s) && TokensOk(s256, s) && (e.Issuing? ==> e.issue.code !in s.issued)
    ensures TokensOk(s256, Handle(s256, s, e))
  {
    var s' := Handle(s256, s, e);
    forall k | 0 <= k < |s'.tokens|
      ensures TokenOk(s256, s', s'.tokens[k])
      ensures forall l :: k < l < |s'.tokens| ==> s'.tokens[k].request.code != s'.tokens[l].request.code
    {
      if k < |s.tokens| { assert TokenOk(s256, s, s.tokens[k]); }
    }
  }

  lemma EventStep(s256: Digest, s: Server, events: seq<Event>, e: Event)
    requires Inv(s256, s, events) && (e.Issuing? ==> e.issue.code !in s.issued)
    ensures Inv(s256, Handle(s256, s, e), events + [e])
  {
    TableStep(s256, s, e);
    AccountStep(s256, s, e);
    TokenStep(s256, s, e);
    StillIssued(s, events, e);
    assert (events + [e])[|events|] == e;
  }

  lemma {:induction false} Reachable(s256: Digest, events: seq<Event>)
    requires FreshCodes(events)
    ensures Inv(s256, HandleAll(s256, events), events)
  {
    if events != [] {
      var n := |events| - 1;
      var front, e := events[..n], events[n];
      assert events == front + [e];
      assert forall i :: 0 <= i < n ==> front[i] == events[i];
      Reachable(s256, front);
      var s := HandleAll(s256, front);
      assert e.Issuing? ==> e.issue.code !in s.issued;
      EventStep(s256, s, front, e);
    }
  }

  ghost predicate IssuedBy(code: Code, g: Grant, events: seq<Event>) {
    exists i :: 0 <= i < |events| && events[i].Issuing? && events[i].issue.code == code
      && Grant(events[i].issue.clientId, events[i].issue.redirectUri, events[i].issue.challenge,
          events[i].issue.createdAt) == g
  }

  /** A token for the client, redirect URI and verifier its code was issued for, at most five minutes later. */
  ghost predicate Due(s256: Digest, events: seq<Event>, t: Token) {
    && IssuedBy(t.request.code, t.grant, events)
    && t.grant.clientId == t.request.clientId && t.grant.redirectUri == t.request.redirectUri
    && t.grant.challenge == s256(t.request.verifier)
    && t.at <= t.grant.createdAt + CODE_TTL
  }

  /** Over any run every token is due, no code yields two, and the table holds at most 2048 codes. */
  lemma TokensAreDue(s256: Digest, events: seq<Event>)
    requires FreshCodes(events)
    ensures |HandleAll(s256, events).codes| <= MAX_CODES
    ensures var tokens := HandleAll(s256, events).tokens;
            && (forall k :: 0 <= k < |tokens| ==> Due(s256, events, tokens[k]))
            && (forall k, l :: 0 <= k < l < |tokens| ==> tokens[k].request.code != tokens[l].request.code)
  {
    Reachable(s256, events);
    IssuedByEvents(s256, events);
    var s := HandleAll(s256, events);
    forall k | 0 <= k < |s.tokens| ensures Due(s256, events, s.tokens[k]) { assert TokenOk(s256, s, s.tokens[k]); }
  }

  lemma {:induction false} IssuedByEvents(s256: Digest, events: seq<Event>)
    ensures forall code :: code in HandleAll(s256, events).issued ==>
            IssuedBy(code, HandleAll(s256, events).issued[code], events)
  {
    if events != [] {
      var n := |events| - 1;
      var front := events[..n];
      IssuedByEvents(s256, front);
      var s, s' := HandleAll(s256, front), HandleAll(s256, events);
      forall code | code in s'.issued ensures IssuedBy(code, s'.issued[code], events) {
        if code in s.issued && s.issued[code] == s'.issued[code] {
          assert IssuedBy(code, s.issued[code], front);
          var i :| 0 <= i < |front| && front[i].Issuing? && front[i].issue.code == code
            && Grant(front[i].issue.clientId, front[i].issue.redirectUri, front[i].issue.challenge,
                front[i].issue.createdAt) == s.issued[code];
          assert events[i] == front[i];
        } else {
          assert events[n].Issuing? && events[n].issue.code == code;
        }
      }
    }
  }

  /** After any run a token request succeeds exactly when its code was issued, has not been exchanged, is at most
      five minutes old, was issued for this client, redirect URI and verifier, and the token can be signed; the
      token is then for what the code was issued for. */
  lemma ExchangeSucceedsWhen(s256: Digest, events: seq<Event>, q: ExchangeRequest)
    requires FreshCodes(events)
    ensures var s := HandleAll(s256, events);
            var granted := Exchange(s256, s.codes, q, s.now).1;
            && (granted.Some? <==>
                  && q.code in s.issued && !UsedUp(s, q.code) && q.signs
                  && var g := s.issued[q.code];
                  && s.now <= g.createdAt + CODE_TTL
                  && g.clientId == q.clientId && g.redirectUri == q.redirectUri && g.challenge == s256(q.verifier))
            && (granted.Some? ==> granted == Some(s.issued[q.code]))
  {
    var s := HandleAll(s256, events);
    LiveInTable(s256, events);
    assert q.code in LiveCodes(s) <==> q.code in Prune(s.codes, s.now).Keys;
  }

  /** The codes that were issued in the last five minutes and have not been exchanged. */
  ghost function LiveCodes(s: Server): set<Code> {
    set code | code in s.issued && s.now <= s.issued[code].createdAt + CODE_TTL && !UsedUp(s, code)
  }

  /** The table, once pruned, holds exactly these, each with the grant it was issued with. */
  lemma LiveInTable(s256: Digest, events: seq<Event>)
    requires FreshCodes(events)
    ensures var s := HandleAll(s256, events);
            && Prune(s.codes, s.now).Keys == LiveCodes(s)
            && forall code :: code in LiveCodes(s) ==> Prune(s.codes, s.now)[code] == s.issued[code]
  {
    Reachable(s256, events);
    var s := HandleAll(s256, events);
    forall code | code in LiveCodes(s) ensures code in Prune(s.codes, s.now) { assert Accounted(s, code); }
    forall k | 0 <= k < |s.tokens| ensures s.tokens[k].request.code !in s.codes {
      assert TokenOk(s256, s, s.tokens[k]);
    }
  }

  /** After any run a code is issued exactly when fewer than 2048 are live, and then for exactly what was asked;
      expired and exchanged codes never stand in the way. */
  lemma IssuesWhen(s256: Digest, events: seq<Event>, q: IssueRequest)
    requires FreshCodes(events)
    ensures var s, s' := HandleAll(s256, events), HandleAll(s256, events + [Issuing(q)]);
            && (Issue(s.codes, q, s.now).1 <==> |LiveCodes(s)| < MAX_CODES)
            && s'.issued == if |LiveCodes(s)| < MAX_CODES
                            then s.issued[q.code := Grant(q.clientId, q.redirectUri, q.challenge, q.createdAt)]
                            else s.issued
  {
    LiveInTable(s256, events);
    var s := HandleAll(s256, events);
    assert |Prune(s.codes, s.now)| == |Prune(s.codes, s.now).Keys|;
    assert (events + [Issuing(q)])[..|events|] == events;
  }

  /** Pruning now makes no difference to pruning later. */
  lemma PruneTwice(codes: Codes, now: nat, later: nat)
    requires now <= later
    ensures Prune(Prune(codes, now), later) == Prune(codes, later)
  {
  }

  /** Two servers that have issued and exchanged the same and differ in expired codes only. */
  ghost predicate Alike(s: Server, t: Server) {
    s.now == t.now && s.issued == t.issued && s.tokens == t.tokens && Prune(s.codes, s.now) == Prune(t.codes, t.now)
  }

  lemma StayAlike(s256: Digest, s: Server, t: Server, e: Event)
    requires Alike(s, t)
    ensures Alike(Handle(s256, s, e), Handle(s256, t, e))
  {
    if e.Tick? {
      PruneTwice(s.codes, s.now, s.now + e.elapsed);
      PruneTwice(t.codes, t.now, t.now + e.elapsed);
    }
  }

  function HandleFrom(s256: Digest, s: Server, events: seq<Event>): Server {
    if events == [] then s
    else Handle(s256, HandleFrom(s256, s, events[..|events| - 1]), events[|events| - 1])
  }

  lemma {:induction false} HandleSplit(s256: Digest, before: seq<Event>, after: seq<Event>)
    ensures HandleAll(s256, before + after) == HandleFrom(s256, HandleAll(s256, before), after)
  {
    if after == [] {
      assert before + after == before;
    } else {
      var n := |after| - 1;
      HandleSplit(s256, before, after[..n]);
      assert (before + after)[..|before| + n] == before + after[..n];
    }
  }

  lemma {:induction false} AlikeForever(s256: Digest, s: Server, t: Server, events: seq<Event>)
    requires Alike(s, t)
    ensures Alike(HandleFrom(s256, s, events), HandleFrom(s256, t, events))
  {
    if events != [] {
      var front := events[..|events| - 1];
      AlikeForever(s256, s, t, front);
      StayAlike(s256, HandleFrom(s256, s, front), HandleFrom(s256, t, front), events[|events| - 1]);
    }
  }

  /** A failed exchange takes nothing away: whatever happens afterwards, at whatever times, the server issues the
      same codes, hands out the same tokens and keeps the same usable codes as if the request had never come. */
  lemma FailureLeavesCodeUsable(s256: Digest, before: seq<Event>, bad: ExchangeRequest, after: seq<Event>)
    requires var s := HandleAll(s256, before); Exchange(s256, s.codes, bad, s.now).1 == None
    ensures Alike(HandleAll(s256, before + [Exchanging(bad)] + after), HandleAll(s256, before + after))
  {
    var s := HandleAll(s256, before);
    var t := Handle(s256, s, Exchanging(bad));
    assert (before + [Exchanging(bad)])[..|before|] == before;
    assert HandleAll(s256, before + [Exchanging(bad)]) == t;
    PruneTwice(s.codes, s.now, s.now);
    HandleSplit(s256, before + [Exchanging(bad)], after);
    HandleSplit(s256, before, after);
    AlikeForever(s256, t, s, after);
  }

  lemma {:induction false} TokensKept(s256: Digest, s: Server, events: seq<Event>)
    ensures s.tokens <= HandleFrom(s256, s, events).tokens
  {
    if events != [] { TokensKept(s256, s, events[..|events| - 1]); }
  }

  /** A successful exchange uses the code up: whatever happens afterwards, every later exchange of it fails. */
  lemma SuccessUsesCode(s256: Digest, before: seq<Event>, first: ExchangeRequest, after: seq<Event>,
      again: ExchangeRequest)
    requires FreshCodes(before + [Exchanging(first)] + after) && again.code == first.code
    requires var s := HandleAll(s256, before); Exchange(s256, s.codes, first, s.now).1.Some?
    ensures var s := HandleAll(s256, before + [Exchanging(first)] + after);
            Exchange(s256, s.codes, again, s.now).1 == None
  {
    var events := before + [Exchanging(first)] + after;
    var t := HandleAll(s256, before + [Exchanging(first)]);
    assert (before + [Exchanging(first)])[..|before|] == before;
    assert t.tokens[|t.tokens| - 1].request == first;
    HandleSplit(s256, before + [Exchanging(first)], after);
    TokensKept(s256, t, after);
    assert UsedUp(HandleAll(s256, events), first.code);
    ExchangeSucceedsWhen(s256, events, again);
  }

  // ----- In place

  class CodeTable {
    const s256: Digest
    var codes: Codes

    constructor (s256: Digest)
      ensures this.s256 == s256 && codes == map[]
    {
      this.s256, codes := s256, map[];
    }

    /** pruneCodesLocked: one pass over the table, deleting what is too old. */
    method PruneCodes(now: nat)
      modifies this
      ensures codes == Prune(old(codes), now)
    {
      var rest := codes.Keys;
      while rest != {}
        invariant rest <= codes.Keys
        invariant forall code :: code in codes <==>
                    code in old(codes) && (code in rest || !Expired(old(codes)[code], now))
        invariant forall code :: code in codes ==> codes[code] == old(codes)[code]
        decreases rest
      {
        var code :| code in rest;
        rest := rest - {code};
        if codes[code].createdAt + CODE_TTL < now {
          codes := codes - {code};
        }
      }
    }

    method IssueAuthorizationCode(q: IssueRequest, now: nat) returns (ok: bool)
      modifies this
      ensures (codes, ok) == Issue(old(codes), q, now)
    {
      PruneCodes(now);
      if |codes| >= MAX_CODES { return false; }
      codes := codes[q.code := Grant(q.clientId, q.redirectUri, q.challenge, q.createdAt)];
      return true;
    }

    method ExchangeAuthorizationCode(q: ExchangeRequest, now: nat) returns (granted: Option<Grant>)
      modifies this
      ensures (codes, granted) == Exchange(s256, old(codes), q, now)
    {
      PruneCodes(now);
      if q.code !in codes || !Matches(s256, codes[q.code], q) { return None; }
      if !q.signs { return None; }
      granted := Some(codes[q.code]);
      codes := codes - {q.code};
    }
  }
}
