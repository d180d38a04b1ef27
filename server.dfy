/** The Express backend (server.js) as a function from a request to a
    response. Every handler builds its reply from literals and the request
    alone, so no state survives between calls. */
module Server {
  import opened Api

  /** A request as the router sees it: the HTTP method (verb), the path that routes
      are matched against, and the query part (empty or starting with `?`)
      that `originalUrl` keeps. */
  datatype Request = Request(verb: string, path: string, query: string)

  function OriginalUrl(req: Request): string {
    req.path + req.query
  }

  datatype Body =
    | HealthBody(status: string, message: string, timestamp: string)
    | InternBody(profile: InternProfile)
    | LeaderboardBody(entries: seq<LeaderboardEntry>)
    | ErrorBody(error: string, message: string)

  datatype Response = Response(status: nat, body: Body)

  const HealthPath := "/api/health"
  const InternPath := "/api/intern"
  const LeaderboardPath := "/api/leaderboard"

  const HealthMessage := "Intern Portal API is running"
  const NotFoundError := "Route not found"

  /** The fixed profile served by `/api/intern`. */
  const InternData := InternProfile("Vishwa Vikas", "vishwavy2025", 7400)

  /** The fixed list served by `/api/leaderboard`. */
  const LeaderboardData := [
    LeaderboardEntry(1, "Vishwa Vikas", "vishwavy2025", 7400,
                     "https://api.dicebear.com/7.x/avataaars/svg?seed=vishwa"),
    LeaderboardEntry(2, "Sarah Johnson", "sarahj2025", 6800,
                     "https://api.dicebear.com/7.x/avataaars/svg?seed=sarah"),
    LeaderboardEntry(3, "Mike Chen", "mikec2025", 6200,
                     "https://api.dicebear.com/7.x/avataaars/svg?seed=mike"),
    LeaderboardEntry(4, "Emily Davis", "emilyd2025", 5800,
                     "https://api.dicebear.com/7.x/avataaars/svg?seed=emily"),
    LeaderboardEntry(5, "Alex Rodriguez", "alexr2025", 5200,
                     "https://api.dicebear.com/7.x/avataaars/svg?seed=alex")
  ]

  /** One of the three registered `GET` routes. */
  predicate IsApiRoute(req: Request) {
    req.verb == "GET" && (req.path == HealthPath || req.path == InternPath || req.path == LeaderboardPath)
  }

  /** Route dispatch in registration order, ending in the catch-all 404.
      The health timestamp is the server's clock reading, taken as given. */
  function Handle(req: Request, timestamp: string): (resp: Response)
    ensures resp.status == 200 <==> IsApiRoute(req)
    ensures resp.status == 404 <==> !IsApiRoute(req)
    ensures resp.body.ErrorBody? <==> !IsApiRoute(req)
  {
    if req.verb == "GET" && req.path == HealthPath then
      Response(200, HealthBody("OK", HealthMessage, timestamp))
    else if req.verb == "GET" && req.path == InternPath then
      Response(200, InternBody(InternData))
    else if req.verb == "GET" && req.path == LeaderboardPath then
      Response(200, LeaderboardBody(LeaderboardData))
    else
      Response(404, ErrorBody(NotFoundError, "Cannot " + req.verb + " " + OriginalUrl(req)))
  }

  lemma HealthCheck(query: string, timestamp: string)
    ensures Handle(Request("GET", HealthPath, query), timestamp)
            == Response(200, HealthBody("OK", HealthMessage, timestamp))
  {
  }

  /** `/api/intern` always answers with the same profile: a non-empty
      referral code and a non-negative amount. */
  lemma InternEndpoint(query: string, timestamp: string)
    ensures var resp := Handle(Request("GET", InternPath, query), timestamp);
            resp.status == 200 && resp.body == InternBody(InternData)
            && resp.body.profile.name == "Vishwa Vikas"
            && resp.body.profile.referralCode == "vishwavy2025"
            && resp.body.profile.referralCode != ""
            && resp.body.profile.donations == 7400 >= 0
  {
  }

  /** `/api/leaderboard` always answers with the fixed, well-formed list. */
  lemma LeaderboardEndpoint(query: string, timestamp: string)
    ensures var resp := Handle(Request("GET", LeaderboardPath, query), timestamp);
            resp.status == 200 && resp.body == LeaderboardBody(LeaderboardData)
            && |resp.body.entries| == 5 && WellFormedBoard(resp.body.entries)
  {
    LeaderboardDataWellFormed();
  }

  /** Everything else gets the catch-all reply, whose message names both the
      method and the full original URL. */
  lemma NotFound(req: Request, timestamp: string)
    requires !IsApiRoute(req)
    ensures Handle(req, timestamp)
            == Response(404, ErrorBody("Route not found", "Cannot " + req.verb + " " + req.path + req.query))
  {
  }

  lemma LeaderboardDataWellFormed()
    ensures WellFormedBoard(LeaderboardData)
    ensures forall i, j :: 0 <= i < j < |LeaderboardData| ==> LeaderboardData[i].rank != LeaderboardData[j].rank
    ensures forall i :: 0 < i < |LeaderboardData| ==> LeaderboardData[i].donations < LeaderboardData[0].donations
  {
    LeaderboardCodesDistinct();
    TopRankHoldsMaximum(LeaderboardData);
  }

  lemma LeaderboardCodesDistinct()
    ensures DistinctReferralCodes(LeaderboardData)
  {
    var initials := seq(|LeaderboardData|, k requires 0 <= k < |LeaderboardData| => LeaderboardData[k].referralCode[0]);
    assert initials == "vsmea";
    forall i, j | 0 <= i < j < |LeaderboardData|
      ensures LeaderboardData[i].referralCode != LeaderboardData[j].referralCode
    {
      assert initials[i] != initials[j];
    }
  }

  /** The profile is the rank-1 leaderboard row. */
  lemma InternIsTopOfLeaderboard()
    ensures LeaderboardData[0].rank == 1
    ensures InternData.name == LeaderboardData[0].name
    ensures InternData.referralCode == LeaderboardData[0].referralCode
    ensures InternData.donations == LeaderboardData[0].donations
  {
  }
}
