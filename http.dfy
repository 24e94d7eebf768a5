/** The rate-limited REST gateway (src/http.rs): which quota a request waits on,
    the URL it is sent to, and the rule that a lease comes before every send. */
module Http {
  import opened Wrappers
  import opened Errors
  import Entities
  import MessageBuilders
  import ChannelBuilders

  /** `DELTA_API`, the base URL of the REST API. */
  const DeltaApi: string := "https://api.revolt.chat"

  /** The per-class limits of `RATE_LIMITS`, keyed by first path segment. */
  const RateLimits: map<string, nat> :=
    map["bots" := 10, "channels" := 15, "servers" := 5, "auth" := 3, "swagger" := 100]

  /** Rate of the one shared limiter built in `HttpClient::new`, per second. */
  const SharedPerSecond: nat := 2

  /** Upper bound of the jitter every wait adds, in milliseconds. */
  const JitterMillis: nat := 100

  /** The five verbs; `obtain_lease` receives them as the strings "GET", "POST", ... */
  datatype Method = GET | POST | PUT | PATCH | DELETE

  predicate StartsWith(s: string, prefix: string) {
    |prefix| <= |s| && s[..|prefix|] == prefix
  }

  predicate EndsWith(s: string, suffix: string) {
    |suffix| <= |s| && s[|s| - |suffix|..] == suffix
  }

  /** `path.split('/').next().unwrap()`: everything before the first '/', or the
      whole path when it has none (the empty path gives the empty segment). */
  function FirstSegment(path: string): (r: string)
    ensures '/' !in r
    ensures StartsWith(path, r)
    ensures r == path || path[|r|] == '/'
  {
    if path == [] || path[0] == '/' then [] else [path[0]] + FirstSegment(path[1..])
  }

  /** The first segment of `a/b` is `a` when `a` holds no '/'. */
  lemma {:induction false} FirstSegmentOfJoin(a: string, b: string)
    requires '/' !in a
    ensures FirstSegment(a + "/" + b) == a
  {
    if a != [] {
      assert (a + "/" + b)[1..] == a[1..] + "/" + b;
      FirstSegmentOfJoin(a[1..], b);
    }
  }

  /** What `obtain_lease` waits on before a request. */
  datatype Lease =
    | Fresh(perSecond: nat)   // a limiter built for this one call, dropped afterwards
    | Shared                  // the client's one persistent 2-per-second limiter
    | Panic                   // `NonZeroU32::new(0).unwrap()` aborts the task

  /** The per-second rate of a route class: the published limit divided by ten,
      in integer division. */
  function ClassRate(segment: string): nat
    requires segment in RateLimits
  {
    RateLimits[segment] / 10
  }

  /** `obtain_lease`: the choice of limiter for one request. */
  function ObtainLease(path: string, m: Method): Lease {
    match m
    case POST =>
      if StartsWith(path, "/channels") && EndsWith(path, "/messages") then Fresh(1) else Shared
    case DELETE =>
      if StartsWith(path, "/auth") then Fresh(25) else Shared
    case _ =>
      var segment := FirstSegment(path);
      if segment in RateLimits then
        if ClassRate(segment) == 0 then Panic else Fresh(ClassRate(segment))
      else Shared
  }

  /** The classes whose rate rounds down to zero. */
  lemma ZeroRateClasses(segment: string)
    requires segment in RateLimits
    ensures ClassRate(segment) == 0 <==> segment == "servers" || segment == "auth"
  {
  }

  /** `obtain_lease` panics exactly for a verb other than POST and DELETE whose
      first path segment is `servers` or `auth`. */
  lemma {:induction false} LeasePanicsIff(path: string, m: Method)
    ensures ObtainLease(path, m) == Panic <==>
      m != POST && m != DELETE && (FirstSegment(path) == "servers" || FirstSegment(path) == "auth")
  {
    if m != POST && m != DELETE {
      var segment := FirstSegment(path);
      if segment in RateLimits {
        ZeroRateClasses(segment);
      }
    }
  }

  /** Every limiter that is built has a non-zero rate, and it is one of the four
      rates the table and the two special cases give: 1, 10 or 25 per second. */
  lemma {:induction false} FreshRates(path: string, m: Method)
    requires ObtainLease(path, m).Fresh?
    ensures ObtainLease(path, m).perSecond in {1, 10, 25}
  {
    if m != POST && m != DELETE {
      ClassRates(FirstSegment(path));
    }
  }

  /** The rate of each class in the table is 0, 1 or 10. */
  lemma ClassRates(segment: string)
    requires segment in RateLimits
    ensures ClassRate(segment) in {0, 1, 10}
  {
    assert RateLimits.Keys == {"bots", "channels", "servers", "auth", "swagger"};
    if segment == "bots" {
    } else if segment == "channels" {
    } else if segment == "servers" {
    } else if segment == "auth" {
    } else {
      assert segment == "swagger";
    }
  }

  /** For GET, PUT and PATCH the table decides: `bots` and `channels` give a
      fresh 1/s limiter, `swagger` a fresh 10/s one, an unknown segment the
      shared limiter. */
  lemma TableRates(path: string, m: Method)
    requires m != POST && m != DELETE
    ensures FirstSegment(path) == "bots" ==> ObtainLease(path, m) == Fresh(1)
    ensures FirstSegment(path) == "channels" ==> ObtainLease(path, m) == Fresh(1)
    ensures FirstSegment(path) == "swagger" ==> ObtainLease(path, m) == Fresh(10)
    ensures FirstSegment(path) !in RateLimits ==> ObtainLease(path, m) == Shared
  {
    var segment := FirstSegment(path);
    if segment == "bots" {
      SegmentRate(path, m, "bots");
    } else if segment == "channels" {
      SegmentRate(path, m, "channels");
    } else if segment == "swagger" {
      SegmentRate(path, m, "swagger");
    }
  }

  /** For a verb other than POST and DELETE the lease depends on the first segment only. */
  lemma SegmentRate(path: string, m: Method, segment: string)
    requires m != POST && m != DELETE
    requires segment in RateLimits && FirstSegment(path) == segment
    ensures ClassRate(segment) != 0 ==> ObtainLease(path, m) == Fresh(ClassRate(segment))
    ensures ClassRate(segment) == 0 ==> ObtainLease(path, m) == Panic
  {
  }

  /** A string that starts with `p + q` starts with `p`. */
  lemma PrefixOfPrefix(s: string, p: string, q: string)
    ensures StartsWith(s, p + q) ==> StartsWith(s, p)
  {
    if StartsWith(s, p + q) {
      assert s[..|p|] == (p + q)[..|p|];
    }
  }

  /** The two special cases look for a leading '/', so a path without one always
      takes the shared limiter for POST and DELETE. */
  lemma {:induction false} NoLeadingSlashIsShared(path: string)
    requires !StartsWith(path, "/")
    ensures ObtainLease(path, POST) == Shared
    ensures ObtainLease(path, DELETE) == Shared
  {
    PrefixOfPrefix(path, "/", "channels");
    PrefixOfPrefix(path, "/", "auth");
    assert "/" + "channels" == "/channels" && "/" + "auth" == "/auth";
  }

  /** `make_url`: the base URL, a '/', then the path as given. */
  function MakeUrl(path: string): (r: string)
    ensures StartsWith(r, DeltaApi + "/")
    ensures r[|DeltaApi| + 1..] == path
  {
    DeltaApi + "/" + path
  }

  /** A request body; the server, member and user edit builders are not part of
      this model and travel as `OtherBody`. */
  datatype Body =
    | NoBody
    | CreateMessageBody(createMessage: MessageBuilders.CreateMessage)
    | EditMessageBody(editMessage: MessageBuilders.EditMessage)
    | CreateChannelBody(createChannel: ChannelBuilders.CreateChannel)
    | EditChannelBody(editChannel: ChannelBuilders.EditChannel)
    | BanBody(ban: Entities.CreateBan)
    | OtherBody

  /** One request as it leaves the client. */
  datatype Request = Request(verb: Method, path: string, body: Body) {
    function Url(): string {
      MakeUrl(path)
    }
  }

  /** What the remote end answers: a decoded body, a decoded API error, or a
      transport-level failure. */
  datatype Response<T> = Success(body: T) | Rejected(error: ApiError) | TransportFailed(reason: string)

  /** The value a verb returns to its caller, or the panic of its lease. */
  datatype Reply<+T> = Returned(result: Result<T, Error>) | Panicked

  /** How a verb turns the remote answer into its `Result`. */
  function Deliver<T>(response: Response<T>): Result<T, Error> {
    match response
    case Success(b) => Ok(b)
    case Rejected(e) => Err(Api(e))
    case TransportFailed(why) => Err(Http(why))
  }

  /** What a verb returns for `response` when nothing but the lease is
      considered: a panic exactly when the lease panics, the delivered result
      otherwise. */
  function Answer<T>(m: Method, path: string, response: Response<T>): (r: Reply<T>)
    ensures r == Panicked <==> ObtainLease(path, m) == Panic
    ensures r.Returned? ==> r.result == Deliver(response)
  {
    if ObtainLease(path, m) == Panic then Panicked else Returned(Deliver(response))
  }

  /** The client's HTTP state. The shared limiter is the only limiter that lives
      across calls; `sharedLeases` counts the leases it has handed out. `sent` is
      the sequence of requests that actually left the client. */
  class HttpClient {
    var sharedLeases: nat
    var sent: seq<Request>
    /** The bot's own user, fetched at start-up with GET `users/@me`. */
    const bot: Entities.User

    constructor (bot: Entities.User)
      ensures this.bot == bot && sharedLeases == 0 && sent == []
    {
      this.bot := bot;
      sharedLeases := 0;
      sent := [];
    }

    /** `get`, `post`, `put`, `patch` and `delete`: obtain a lease, then send.
        A panicking lease sends nothing; otherwise exactly this request is sent
        and the remote `response` is delivered. */
    method Send<T>(m: Method, path: string, body: Body, response: Response<T>) returns (r: Reply<T>)
      modifies this
      ensures r == Answer(m, path, response)
      ensures ObtainLease(path, m) == Panic ==>
        r == Panicked && sent == old(sent) && sharedLeases == old(sharedLeases)
      ensures ObtainLease(path, m) != Panic ==>
        && r == Returned(Deliver(response))
        && sent == old(sent) + [Request(m, path, body)]
        && sharedLeases == old(sharedLeases) + (if ObtainLease(path, m) == Shared then 1 else 0)
    {
      var lease := ObtainLease(path, m);
      if lease == Panic {
        return Panicked;
      }
      if lease == Shared {
        sharedLeases := sharedLeases + 1;
      }
      sent := sent + [Request(m, path, body)];
      r := Returned(Deliver(response));
    }
  }
}
