/** `rateLimit(windowMs, maxRequests)`: a client, told apart by its
    `x-forwarded-for` header or else its socket address, may make at most
    `maxRequests` requests in any `windowMs` milliseconds. One map of
    request times, created when the module loads, serves every limiter;
    the clock is a parameter. */
module RateLimit {
  import opened Wrappers
  import opened Json
  import opened Envelope

  datatype Limiter = Limiter(windowMs: int, maxRequests: nat)

  /** `rateLimit()` with its defaults, and the contact form's five per hour. */
  const DefaultLimiter: Limiter := Limiter(60000, 10)
  const ContactLimiter: Limiter := Limiter(3600000, 5)

  /** The key of the map; `None` is `undefined`, one shared key. */
  type Identifier = Option<string>

  /** `req.headers['x-forwarded-for'] || req.connection.remoteAddress` */
  function IdentifierOf(forwardedFor: Option<string>, remoteAddress: Option<string>): Identifier {
    if forwardedFor.Some? && forwardedFor.value != "" then forwardedFor else remoteAddress
  }

  const TooManyRequests: Reply :=
    Reply(429, Obj(map["success" := Bool(false), "error" := Str("Too many requests. Please try again later.")]))

  /** `times.filter(time => time > windowStart)`: each time inside the
      window is kept as often as it occurs, every other time is dropped, and
      the order is kept. */
  function Recent(times: seq<int>, windowStart: int): (r: seq<int>)
    ensures |r| <= |times|
    ensures forall t :: t in r <==> t in times && t > windowStart
    ensures forall t :: multiset(r)[t] == if t > windowStart then multiset(times)[t] else 0
    ensures Ascending(times) ==> Ascending(r)
  {
    if times == [] then []
    else
      var rest := Recent(times[1..], windowStart);
      assert multiset(times) == multiset([times[0]]) + multiset(times[1..]) by {
        assert times == [times[0]] + times[1..];
      }
      assert Ascending(times) ==> Ascending(times[1..]) && forall t :: t in rest ==> times[0] <= t by {
        if Ascending(times) {
          assert Ascending(times[1..]) by {
            forall i, j | 0 <= i < j < |times[1..]|
              ensures times[1..][i] <= times[1..][j]
            {
              assert times[1..][i] == times[i + 1] && times[1..][j] == times[j + 1];
            }
          }
          forall t | t in rest
            ensures times[0] <= t
          {
            var i :| 0 <= i < |times[1..]| && times[1..][i] == t;
            assert times[i + 1] == t;
          }
        }
      }
      ConsAscending(times[0], rest, times[0] > windowStart, Ascending(times));
      (if times[0] > windowStart then [times[0]] else []) + rest
  }

  predicate Ascending(s: seq<int>) { forall i, j :: 0 <= i < j < |s| ==> s[i] <= s[j] }

  /** A time no later than any of an ascending list may be put in front. */
  lemma ConsAscending(x: int, rest: seq<int>, keep: bool, ordered: bool)
    requires ordered ==> Ascending(rest) && forall t :: t in rest ==> x <= t
    ensures ordered ==> Ascending((if keep then [x] else []) + rest)
  {
    var s := (if keep then [x] else []) + rest;
    if ordered && keep {
      forall i, j | 0 <= i < j < |s|
        ensures s[i] <= s[j]
      {
        assert s[j] == rest[j - 1];
        if i > 0 {
          assert s[i] == rest[i - 1];
        } else {
          assert rest[j - 1] in rest;
        }
      }
    } else if ordered {
      assert s == rest;
    }
  }

  /** Times all inside the window are all kept, in order. */
  lemma {:induction false} RecentKeepsWindow(times: seq<int>, windowStart: int)
    requires forall i :: 0 <= i < |times| ==> times[i] > windowStart
    ensures Recent(times, windowStart) == times
  {
    if times != [] {
      RecentKeepsWindow(times[1..], windowStart);
      assert [times[0]] + times[1..] == times;
    }
  }

  /** The times kept for `id` after the clean-up; a new client starts empty. */
  function Kept(counts: map<Identifier, seq<int>>, lim: Limiter, id: Identifier, now: int): seq<int> {
    if id in counts then Recent(counts[id], now - lim.windowMs) else []
  }

  datatype Decision = Decision(allowed: bool, counts: map<Identifier, seq<int>>)

  /** One call of the middleware: the cleaned list is stored either way, and
      the request's time is added to it only when the request is let
      through. */
  function Admit(counts: map<Identifier, seq<int>>, lim: Limiter, id: Identifier, now: int): Decision {
    var kept := Kept(counts, lim, id, now);
    if |kept| >= lim.maxRequests then Decision(false, counts[id := kept])
    else Decision(true, counts[id := kept + [now]])
  }

  /** No client ever has more times on record than the limit allows, so
      no more than `maxRequests` requests get through in one window. */
  lemma AdmitKeepsBound(counts: map<Identifier, seq<int>>, lim: Limiter, id: Identifier, now: int)
    requires forall k :: k in counts ==> |counts[k]| <= lim.maxRequests
    ensures var d := Admit(counts, lim, id, now);
            forall k :: k in d.counts ==> |d.counts[k]| <= lim.maxRequests
  {
  }

  /** A request gets through exactly when fewer than `maxRequests` of the
      client's earlier times lie within the window, and then its time is on
      record; other clients' records are left alone. */
  lemma AdmitIffRoom(counts: map<Identifier, seq<int>>, lim: Limiter, id: Identifier, now: int)
    ensures var d := Admit(counts, lim, id, now);
            && (d.allowed <==> |Kept(counts, lim, id, now)| < lim.maxRequests)
            && (d.allowed ==> d.counts[id] == Kept(counts, lim, id, now) + [now])
            && (!d.allowed ==> d.counts[id] == Kept(counts, lim, id, now))
            && d.counts.Keys == counts.Keys + {id}
            && forall k :: k in counts && k != id ==> d.counts[k] == counts[k]
  {
  }

  /** A time exactly one window old no longer counts. */
  lemma WindowIsOpenAtItsStart(lim: Limiter, id: Identifier, t: int)
    ensures Kept(map[id := [t]], lim, id, t + lim.windowMs) == []
  {
  }

  /** With a clock that does not run backwards, each client's times stay in
      order. */
  lemma AdmitKeepsOrder(counts: map<Identifier, seq<int>>, lim: Limiter, id: Identifier, now: int)
    requires forall k :: k in counts ==> Ascending(counts[k])
    requires id in counts ==> forall i :: 0 <= i < |counts[id]| ==> counts[id][i] <= now
    ensures var d := Admit(counts, lim, id, now);
            forall k :: k in d.counts ==> Ascending(d.counts[k])
  {
    if id in counts {
      var kept := Recent(counts[id], now - lim.windowMs);
      assert forall i :: 0 <= i < |kept| ==> kept[i] <= now by {
        forall i | 0 <= i < |kept|
          ensures kept[i] <= now
        {
          assert kept[i] in counts[id];
        }
      }
    }
  }

  /** Times all older than the window are all dropped. */
  lemma {:induction false} RecentDropsStale(times: seq<int>, windowStart: int)
    requires forall i :: 0 <= i < |times| ==> times[i] <= windowStart
    ensures Recent(times, windowStart) == []
  {
    if times != [] {
      RecentDropsStale(times[1..], windowStart);
    }
  }

  /** A client with `maxRequests` times inside the window is turned away,
      and its record stays as it was: the contact form's sixth message
      within the hour is refused. */
  lemma FullWindowRejects(counts: map<Identifier, seq<int>>, lim: Limiter, id: Identifier, now: int)
    requires id in counts && |counts[id]| >= lim.maxRequests
    requires forall i :: 0 <= i < |counts[id]| ==> counts[id][i] > now - lim.windowMs
    ensures !Admit(counts, lim, id, now).allowed && Admit(counts, lim, id, now).counts == counts
  {
    RecentKeepsWindow(counts[id], now - lim.windowMs);
  }

  /** Once every recorded time is a full window old, the client is let
      through again and starts a fresh record. */
  lemma ElapsedWindowAdmits(counts: map<Identifier, seq<int>>, lim: Limiter, id: Identifier, now: int)
    requires lim.maxRequests > 0
    requires id in counts ==> forall i :: 0 <= i < |counts[id]| ==> counts[id][i] <= now - lim.windowMs
    ensures Admit(counts, lim, id, now).allowed && Admit(counts, lim, id, now).counts[id] == [now]
  {
    if id in counts {
      RecentDropsStale(counts[id], now - lim.windowMs);
    }
  }

  /** The request-time map. */
  class RequestCounts {
    var counts: map<Identifier, seq<int>>

    constructor ()
      ensures counts == map[]
    {
      counts := map[];
    }

    /** The middleware's bookkeeping for one request; true when `next()` is
        called. */
    method Check(lim: Limiter, id: Identifier, now: int) returns (allowed: bool)
      modifies this
      ensures Decision(allowed, counts) == Admit(old(counts), lim, id, now)
    {
      var requests: seq<int>;
      if id in counts {
        requests := Recent(counts[id], now - lim.windowMs);
        counts := counts[id := requests];
      } else {
        requests := [];
        counts := counts[id := []];
      }
      if |requests| >= lim.maxRequests {
        return false;
      }
      requests := requests + [now];
      counts := counts[id := requests];
      return true;
    }
  }
}
