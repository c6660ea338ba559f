/**
 * The rate limit the HTTP front end puts on the `/check_api` slash command
 * (src/server.py).  A Slack command arrives as a form-encoded payload; the
 * middleware recognises `/check_api`, extracts the workspace's `team_domain`
 * and throttles the command while a stored cooldown expiry lies in the future.
 *
 * Instants are whole seconds.  The cooldown table is a map from
 * (team domain, resource) to an expiry instant.
 */
module Server {
  import opened Wrappers
  import opened Text

  const TeamDomainKey := "team_domain="
  const EventsPath := "/slack/events"
  const CheckApiCommand := "command=%2Fcheck_api"
  const CheckApiResource := "check_api"
  const CooldownMinutes := 15
  const SecondsPerMinute := 60
  const RateLimitCopy := "This command has been run recently and is on a cooldown period. Please try again in a little while!"

  type Expiries = map<(string, string), int>

  // ---------------------------------------------------------------------
  // identify_slack_team_domain: re.search(r"team_domain=(.+?(?=&))", payload)
  // ---------------------------------------------------------------------

  /**
   * Index `k` can close the lazy group that starts at `q`: the group
   * `s[q..k]` is non-empty, contains no newline (`.` does not match one)
   * and is followed by `&` (the lookahead).
   */
  predicate ValidEnd(s: string, q: int, k: int)
  {
    0 <= q < k < |s| && s[k] == '&' && NoNewline(s[q..k])
  }

  /** `k` closes the group of a key occurrence at `p`. */
  predicate ClosesAt(s: string, p: int, k: int)
  {
    ValidEnd(s, p + |TeamDomainKey|, k)
  }

  /** The pattern matches at `p`: the key occurs there and some `&` closes the group. */
  predicate Matchable(s: string, p: int)
  {
    OccursAt(s, TeamDomainKey, p) && exists k :: 0 <= k < |s| && ClosesAt(s, p, k)
  }

  /**
   * The match `re.search` reports: the leftmost start at which the pattern
   * matches, with the shortest group there (`.+?` is lazy).
   */
  predicate RegexMatch(s: string, p: int, e: int)
  {
    OccursAt(s, TeamDomainKey, p)
    && ClosesAt(s, p, e)
    && (forall k :: p + |TeamDomainKey| < k < e ==> !ClosesAt(s, p, k))
    && (forall p' :: 0 <= p' < p ==> !Matchable(s, p'))
  }

  /** The first end at or after `j` for the group starting at `q`. */
  function ScanEnd(s: string, q: nat, j: nat): (r: Option<nat>)
    requires q < j <= |s|
    requires NoNewline(s[q..j - 1])
    ensures r.Some? ==> j <= r.value && ValidEnd(s, q, r.value)
    ensures r.Some? ==> forall k :: j <= k < r.value ==> !ValidEnd(s, q, k)
    ensures r.None? ==> forall k :: j <= k ==> !ValidEnd(s, q, k)
    decreases |s| - j
  {
    if j == |s| then None
    else if s[j - 1] == '\n' then
      assert forall k :: j <= k <= |s| ==> s[q..k][j - 1 - q] == '\n';
      None
    else
      assert s[q..j] == s[q..j - 1] + [s[j - 1]];
      if s[j] == '&' then Some(j) else ScanEnd(s, q, j + 1)
  }

  /** The leftmost match at or after `p`, as (start of key, end of group). */
  function Search(s: string, p: nat): (r: Option<(nat, nat)>)
    ensures r.Some? ==> p <= r.value.0 && OccursAt(s, TeamDomainKey, r.value.0)
    ensures r.Some? ==> ClosesAt(s, r.value.0, r.value.1)
    ensures r.Some? ==> forall k :: r.value.0 + |TeamDomainKey| < k < r.value.1 ==>
                          !ClosesAt(s, r.value.0, k)
    ensures r.Some? ==> forall p' :: p <= p' < r.value.0 ==> !Matchable(s, p')
    ensures r.None? ==> forall p' :: p <= p' ==> !Matchable(s, p')
    decreases |s| - p
  {
    if p + |TeamDomainKey| >= |s| then None
    else if OccursAt(s, TeamDomainKey, p) then
      match ScanEnd(s, p + |TeamDomainKey|, p + |TeamDomainKey| + 1)
      case Some(e) => Some((p, e))
      case None => Search(s, p + 1)
    else Search(s, p + 1)
  }

  /**
   * The captured `team_domain`, or None (the source logs an error and
   * returns None) when the pattern matches nowhere.
   */
  function IdentifySlackTeamDomain(payload: string): (r: Option<string>)
    ensures r.None? <==> forall p :: !Matchable(payload, p)
    ensures r.Some? ==> exists p, e :: RegexMatch(payload, p, e)
                                       && r.value == payload[p + |TeamDomainKey|..e]
  {
    match Search(payload, 0)
    case None => None
    case Some((p, e)) =>
      assert Matchable(payload, p);
      assert RegexMatch(payload, p, e);
      Some(payload[p + |TeamDomainKey|..e])
  }

  /**
   * A captured domain is non-empty and has no newline, and only its first
   * character can be `&` (a later `&` would have closed the lazy group).
   */
  lemma TeamDomainShape(payload: string)
    requires IdentifySlackTeamDomain(payload).Some?
    ensures var d := IdentifySlackTeamDomain(payload).value;
      |d| >= 1 && NoNewline(d) && forall i :: 1 <= i < |d| ==> d[i] != '&'
  {
    var d := IdentifySlackTeamDomain(payload).value;
    var p, e :| RegexMatch(payload, p, e) && d == payload[p + |TeamDomainKey|..e];
    var q := p + |TeamDomainKey|;
    assert ValidEnd(payload, q, e);
    assert NoNewline(d);
    forall i | 1 <= i < |d|
      ensures d[i] != '&'
    {
      if d[i] == '&' {
        assert payload[q..q + i] == d[..i];
        assert NoNewline(payload[q..q + i]);
        assert ClosesAt(payload, p, q + i);
        assert false;
      }
    }
  }

  /**
   * A payload shaped like Slack's form body: when no key occurrence starts
   * before `team_domain=`, the domain is the text up to the next `&`.
   */
  lemma TeamDomainOfFormPayload(prefix: string, d: string, rest: string)
    requires |d| >= 1 && NoNewline(d) && forall i :: 0 <= i < |d| ==> d[i] != '&'
    requires forall p :: 0 <= p < |prefix| ==>
               !OccursAt(prefix + TeamDomainKey + d + "&" + rest, TeamDomainKey, p)
    ensures IdentifySlackTeamDomain(prefix + TeamDomainKey + d + "&" + rest) == Some(d)
  {
    var s := prefix + TeamDomainKey + d + "&" + rest;
    var q := |prefix| + |TeamDomainKey|;
    var e := q + |d|;
    assert s[|prefix|..q] == TeamDomainKey;
    assert s[q..e] == d;
    assert s[e] == '&';
    forall k | q < k < e
      ensures !ValidEnd(s, q, k)
    {
      assert s[k] == d[k - q];
    }
    assert RegexMatch(s, |prefix|, e);
    MatchIsReported(s, |prefix|, e);
  }

  /** The match re.search reports is the only one: its start and its end are determined. */
  lemma RegexMatchUnique(s: string, p1: int, e1: int, p2: int, e2: int)
    requires RegexMatch(s, p1, e1) && RegexMatch(s, p2, e2)
    ensures p1 == p2 && e1 == e2
  {
    assert Matchable(s, p1) && Matchable(s, p2);
  }

  /** A match found is the one identify_slack_team_domain captures. */
  lemma MatchIsReported(s: string, p: int, e: int)
    requires RegexMatch(s, p, e)
    ensures IdentifySlackTeamDomain(s) == Some(s[p + |TeamDomainKey|..e])
  {
    assert Matchable(s, p);
    var r := IdentifySlackTeamDomain(s);
    var p', e' :| RegexMatch(s, p', e') && r.value == s[p' + |TeamDomainKey|..e'];
    RegexMatchUnique(s, p, e, p', e');
  }

  /** An empty value lets the lazy group swallow the `&` after it and the next field. */
  lemma EmptyTeamDomainTakesNextField(v: string, rest: string)
    requires NoNewline(v) && forall i :: 0 <= i < |v| ==> v[i] != '&'
    ensures IdentifySlackTeamDomain(TeamDomainKey + "&" + v + "&" + rest) == Some("&" + v)
  {
    var s := TeamDomainKey + "&" + v + "&" + rest;
    var q := |TeamDomainKey|;
    var n := q + 1 + |v|;
    assert s[..q] == TeamDomainKey;
    assert s[q..n] == "&" + v;
    assert ClosesAt(s, 0, n);
    assert Matchable(s, 0);
    var r := IdentifySlackTeamDomain(s);
    var p, e :| RegexMatch(s, p, e) && r.value == s[p + |TeamDomainKey|..e];
    assert p == 0;
    forall k | q < k < n
      ensures !ValidEnd(s, q, k)
    {
      assert s[k] == v[k - q - 1];
    }
    assert e == n;
  }

  /** Without any `&` in the payload the pattern cannot match. */
  lemma NoAmpersandNoDomain(payload: string)
    requires forall i :: 0 <= i < |payload| ==> payload[i] != '&'
    ensures IdentifySlackTeamDomain(payload) == None
  {
  }

  // ---------------------------------------------------------------------
  // check_api_being_requested, check_api_on_cooldown, update_check_api_cooldown
  // ---------------------------------------------------------------------

  /** The request is the `/check_api` slash command sent to the events route. */
  function CheckApiBeingRequested(path: string, payload: string): (b: bool)
    ensures b <==> path == EventsPath && exists k :: OccursAt(payload, CheckApiCommand, k)
  {
    path == EventsPath && Contains(payload, CheckApiCommand)
  }

  /** `database.get_cooldown_expiry_time(team_domain, resource)`. */
  function ExpiryOf(expiries: Expiries, domain: string, resource: string): Option<int>
  {
    if (domain, resource) in expiries then Some(expiries[(domain, resource)]) else None
  }

  /**
   * The decision of check_api_on_cooldown: a missing domain is throttled, a
   * missing expiry or one strictly in the past lets the command through.
   */
  function OnCooldown(expiries: Expiries, domain: Option<string>, now: int): (b: bool)
    ensures domain.None? ==> b
    ensures domain.Some? && ExpiryOf(expiries, domain.value, CheckApiResource).None? ==> !b
    ensures domain.Some? && ExpiryOf(expiries, domain.value, CheckApiResource).Some? ==>
              (b <==> now <= ExpiryOf(expiries, domain.value, CheckApiResource).value)
  {
    match domain
    case None => true
    case Some(d) =>
      match ExpiryOf(expiries, d, CheckApiResource)
      case None => false
      case Some(expiry) => !(now > expiry)
  }

  /** `database.create_cooldown(domain, resource, minutes)` at instant `now`. */
  function CreateCooldown(expiries: Expiries, domain: string, resource: string, minutes: int, now: int): (r: Expiries)
    ensures r.Keys == expiries.Keys + {(domain, resource)}
    ensures ExpiryOf(r, domain, resource) == Some(now + minutes * SecondsPerMinute)
    ensures forall key :: key in expiries && key != (domain, resource) ==> r[key] == expiries[key]
  {
    expiries[(domain, resource) := now + minutes * SecondsPerMinute]
  }

  /** The store after update_check_api_cooldown: nothing is written for a missing domain. */
  function CooldownAfterUpdate(expiries: Expiries, domain: Option<string>, now: int): (r: Expiries)
    ensures domain.None? ==> r == expiries
    ensures domain.Some? ==> ExpiryOf(r, domain.value, CheckApiResource) == Some(now + CooldownMinutes * SecondsPerMinute)
    ensures forall key :: key in expiries && (domain.None? || key != (domain.value, CheckApiResource)) ==>
              key in r && r[key] == expiries[key]
  {
    match domain
    case None => expiries
    case Some(d) => CreateCooldown(expiries, d, CheckApiResource, CooldownMinutes, now)
  }

  // ---------------------------------------------------------------------
  // rate_limit_check_api
  // ---------------------------------------------------------------------

  /** What the middleware does with the request. */
  datatype Response = Throttled(text: string) | Forwarded

  /** The middleware's decision and the cooldown store it leaves behind. */
  function RateLimit(expiries: Expiries, path: string, payload: string, now: int): (r: (Expiries, Response))
    ensures r.1.Throttled? <==>
              CheckApiBeingRequested(path, payload) && OnCooldown(expiries, IdentifySlackTeamDomain(payload), now)
    ensures r.1.Throttled? ==> r.0 == expiries && r.1.text == RateLimitCopy
    ensures !CheckApiBeingRequested(path, payload) ==> r.0 == expiries
  {
    if !CheckApiBeingRequested(path, payload) then (expiries, Forwarded)
    else
      var domain := IdentifySlackTeamDomain(payload);
      if OnCooldown(expiries, domain, now) then (expiries, Throttled(RateLimitCopy))
      else (CooldownAfterUpdate(expiries, domain, now), Forwarded)
  }

  /** Requests other than `/check_api` pass through and leave the store alone. */
  lemma OtherRequestsPassThrough(expiries: Expiries, path: string, payload: string, now: int)
    requires !CheckApiBeingRequested(path, payload)
    ensures RateLimit(expiries, path, payload, now) == (expiries, Forwarded)
  {
  }

  /** A throttled request is a `/check_api` request, gets the cooldown text and refreshes nothing. */
  lemma ThrottledKeepsExpiry(expiries: Expiries, path: string, payload: string, now: int)
    requires RateLimit(expiries, path, payload, now).1.Throttled?
    ensures CheckApiBeingRequested(path, payload)
    ensures RateLimit(expiries, path, payload, now) == (expiries, Throttled(RateLimitCopy))
  {
  }

  /**
   * An allowed `/check_api` request sets the domain's expiry 15 minutes out
   * and changes no other entry.
   */
  lemma AllowedCheckApiSetsCooldown(expiries: Expiries, path: string, payload: string, now: int)
    requires CheckApiBeingRequested(path, payload)
    requires RateLimit(expiries, path, payload, now).1.Forwarded?
    ensures IdentifySlackTeamDomain(payload).Some?
    ensures var d := IdentifySlackTeamDomain(payload).value;
            var after := RateLimit(expiries, path, payload, now).0;
            ExpiryOf(after, d, CheckApiResource) == Some(now + 900)
            && forall key :: key in expiries && key != (d, CheckApiResource) ==> key in after && after[key] == expiries[key]
  {
  }

  /** A request whose domain cannot be extracted is always throttled. */
  lemma MissingDomainThrottled(expiries: Expiries, path: string, payload: string, now: int)
    requires CheckApiBeingRequested(path, payload)
    requires IdentifySlackTeamDomain(payload).None?
    ensures RateLimit(expiries, path, payload, now) == (expiries, Throttled(RateLimitCopy))
  {
  }

  /** The stored expiry instant itself is still on cooldown; one second later it is not. */
  lemma ExpiryInstantOnCooldown(expiries: Expiries, d: string, t: int)
    requires ExpiryOf(expiries, d, CheckApiResource) == Some(t)
    ensures OnCooldown(expiries, Some(d), t)
    ensures !OnCooldown(expiries, Some(d), t + 1)
  {
  }

  /**
   * After an allowed `/check_api` at `now`, the same command from the same
   * workspace at `later >= now` is throttled exactly while
   * `later <= now + 15 minutes`.
   */
  lemma {:induction false} CooldownWindow(expiries: Expiries, path: string, payload: string, now: int, later: int)
    requires CheckApiBeingRequested(path, payload)
    requires RateLimit(expiries, path, payload, now).1.Forwarded?
    ensures var after := RateLimit(expiries, path, payload, now).0;
            RateLimit(after, path, payload, later).1.Throttled? <==> later <= now + 900
  {
    AllowedCheckApiSetsCooldown(expiries, path, payload, now);
  }

  /** Two allowed `/check_api` requests from one workspace are more than 15 minutes apart. */
  lemma {:induction false} AllowedRequestsAreSpaced(expiries: Expiries, path: string, payload: string, now: int, later: int)
    requires CheckApiBeingRequested(path, payload)
    requires RateLimit(expiries, path, payload, now).1.Forwarded?
    requires now <= later
    requires RateLimit(RateLimit(expiries, path, payload, now).0, path, payload, later).1.Forwarded?
    ensures later > now + CooldownMinutes * SecondsPerMinute
  {
    CooldownWindow(expiries, path, payload, now, later);
  }

  /** The cooldown table of the database, updated in place. */
  class CooldownStore {
    var expiries: Expiries

    constructor()
      ensures expiries == map[]
    {
      expiries := map[];
    }

    method GetCooldownExpiryTime(domain: string, resource: string) returns (expiry: Option<int>)
      ensures expiry.Some? <==> (domain, resource) in expiries
      ensures expiry.Some? ==> expiry.value == expiries[(domain, resource)]
    {
      if (domain, resource) in expiries {
        expiry := Some(expiries[(domain, resource)]);
      } else {
        expiry := None;
      }
    }

    method CreateCooldownRecord(domain: string, resource: string, minutes: int, now: int)
      modifies this
      ensures expiries == CreateCooldown(old(expiries), domain, resource, minutes, now)
    {
      expiries := expiries[(domain, resource) := now + minutes * SecondsPerMinute];
    }

    method CheckApiOnCooldown(domain: Option<string>, now: int) returns (onCooldown: bool)
      ensures onCooldown == OnCooldown(expiries, domain, now)
    {
      if domain.None? {
        return true;
      }
      var expiry := GetCooldownExpiryTime(domain.value, CheckApiResource);
      if expiry.None? {
        return false;
      }
      if now > expiry.value {
        return false;
      }
      return true;
    }

    method UpdateCheckApiCooldown(domain: Option<string>, now: int)
      modifies this
      ensures expiries == CooldownAfterUpdate(old(expiries), domain, now)
    {
      if domain.None? {
        return;
      }
      CreateCooldownRecord(domain.value, CheckApiResource, CooldownMinutes, now);
    }

    method RateLimitCheckApi(path: string, payload: string, now: int) returns (response: Response)
      modifies this
      ensures (expiries, response) == RateLimit(old(expiries), path, payload, now)
    {
      if CheckApiBeingRequested(path, payload) {
        var domain := IdentifySlackTeamDomain(payload);
        var onCooldown := CheckApiOnCooldown(domain, now);
        if onCooldown {
          return Throttled(RateLimitCopy);
        }
        UpdateCheckApiCooldown(domain, now);
      }
      return Forwarded;
    }
  }
}
