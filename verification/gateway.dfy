/**
 * The API operations built on `requestWithRetry` (bot.js:200-306). Each takes the
 * response the request layer resolved to (with the gateway budget of 3 attempts
 * from 5 s it is always defined, see `Request.GatewayBudgetBounds`) and maps it to
 * the shape the workflow consumes; none of them lets a failure escape.
 */
module Gateway {
  import opened Common
  import opened Request

  // ---------------------------------------------------------------------------
  // Profile

  datatype Profile = Profile(name: string, points: int, wallet: Option<string>)

  /** What `fetchUserInfo` returns; `points` is `None` for the 'N/A' of a failure. */
  datatype UserInfo = UserInfo(
    success: bool, username: string, points: Option<int>, address: string,
    error: Option<string>, status: Option<int>)

  /** `fetchUserInfo` as written (bot.js:201-223). Its catch block reads `status` from
      the `Error` it has just created from the message alone, so the HTTP status of
      a failed profile request never reaches the caller. */
  function FetchUserInfoAsWritten(r: Response<Profile>): (u: UserInfo)
    ensures u.success <==> r.Success?
    ensures r.Failure? ==> u.status == None && u.error == Some(r.message)
  {
    match r
    case Success(p) =>
      UserInfo(true, p.name, Some(p.points), if Truthy(p.wallet) then p.wallet.value else "N/A", None, None)
    case Failure(message, _) =>
      UserInfo(false, "Unknown", None, "N/A", Some(message), None)
  }

  /** `fetchUserInfo` with the status kept, so that the authentication failure report
      can show the error code it prints (bot.js:388, 394). */
  function FetchUserInfo(r: Response<Profile>): (u: UserInfo)
    ensures u.success <==> r.Success?
    ensures r.Failure? ==>
      (u.status == r.status && u.error == Some(r.message) && u.username == "Unknown" && u.points == None && u.address == "N/A")
    ensures r.Success? ==>
      (u.username == r.data.name && u.points == Some(r.data.points)
       && u.address == (if Truthy(r.data.wallet) then r.data.wallet.value else "N/A"))
    ensures u.success ==> u == FetchUserInfoAsWritten(r)
  {
    match r
    case Success(_) => FetchUserInfoAsWritten(r)
    case Failure(message, status) => FetchUserInfoAsWritten(r).(status := status)
  }

  /** A profile request refused with 404 is reported with no status as written, and
      with 404 once corrected. */
  lemma AuthFailureStatusLost()
    ensures FetchUserInfoAsWritten(Failure("Not Found", Some(404))).status == None
    ensures FetchUserInfo(Failure("Not Found", Some(404))).status == Some(404)
  {
  }

  // ---------------------------------------------------------------------------
  // Public IP

  /** What `getPublicIP` reports (bot.js:158-167) from the lookup's response, whose body
      may lack an `ip` field: the address when one came back, 'Unknown' otherwise. A
      failed lookup resolves rather than throws, so 'Error retrieving IP' is left to
      exceptions raised while building the configuration, which are not modelled. */
  function PublicIp(r: Response<Option<string>>): (shown: string)
    ensures r.Success? && Truthy(r.data) ==> shown == r.data.value
    ensures !(r.Success? && Truthy(r.data)) ==> shown == "Unknown"
  {
    match r
    case Success(ip) => if Truthy(ip) then ip.value else "Unknown"
    case Failure(_, _) => "Unknown"
  }

  /** The address shown is never empty: an empty `ip` is falsy and shows as 'Unknown'. */
  lemma PublicIpNeverEmpty(r: Response<Option<string>>)
    ensures PublicIp(r) != ""
  {
  }

  // ---------------------------------------------------------------------------
  // Campaigns

  datatype Campaign = Campaign(virtualId: string, campaignType: string, isScripted: bool, supportedLanguages: seq<string>)

  /** Only scripted audio campaigns are worked on (bot.js:231). */
  predicate Eligible(c: Campaign) {
    c.campaignType == "AUDIO" && c.isScripted
  }

  /** `items.filter(campaign => campaign.campaign_type === 'AUDIO' && campaign.is_scripted)`. */
  function FilterEligible(items: seq<Campaign>): (kept: seq<Campaign>)
    ensures |kept| <= |items|
    ensures forall k :: 0 <= k < |kept| ==> Eligible(kept[k])
  {
    if items == [] then []
    else if Eligible(items[0]) then [items[0]] + FilterEligible(items[1..])
    else FilterEligible(items[1..])
  }

  datatype CampaignListing = Listed(campaigns: seq<Campaign>) | ListFailed(error: string)

  /** `fetchCampaigns` (bot.js:225-235). */
  function FetchCampaigns(r: Response<seq<Campaign>>): (l: CampaignListing)
    ensures l.Listed? <==> r.Success?
    ensures l.Listed? ==> l.campaigns == FilterEligible(r.data)
    ensures l.ListFailed? ==> l.error == r.message
  {
    match r
    case Success(items) => Listed(FilterEligible(items))
    case Failure(message, _) => ListFailed(message)
  }

  /** `campaign.supported_languages[0]`: the only language a campaign is worked in. */
  function FirstLanguage(c: Campaign): (lang: Option<string>)
    ensures lang.None? <==> c.supportedLanguages == []
    ensures lang.Some? ==> lang.value == c.supportedLanguages[0]
  {
    if c.supportedLanguages == [] then None else Some(c.supportedLanguages[0])
  }

  /** Filtering distributes over concatenation: the kept campaigns of a list are the
      kept campaigns of its parts, in the same order. */
  lemma {:induction false} FilterEligibleAppend(xs: seq<Campaign>, ys: seq<Campaign>)
    ensures FilterEligible(xs + ys) == FilterEligible(xs) + FilterEligible(ys)
    decreases |xs|
  {
    if xs == [] {
      assert xs + ys == ys;
    } else {
      var zs := xs + ys;
      assert zs != [] && zs[1..] == xs[1..] + ys && zs[0] == xs[0];
      FilterEligibleAppend(xs[1..], ys);
      if Eligible(xs[0]) {
        assert FilterEligible(zs) == [xs[0]] + FilterEligible(xs[1..] + ys);
        assert FilterEligible(xs) == [xs[0]] + FilterEligible(xs[1..]);
        assert [xs[0]] + (FilterEligible(xs[1..]) + FilterEligible(ys))
            == ([xs[0]] + FilterEligible(xs[1..])) + FilterEligible(ys);
      } else {
        assert FilterEligible(zs) == FilterEligible(xs[1..] + ys);
        assert FilterEligible(xs) == FilterEligible(xs[1..]);
      }
    }
  }

  /** A campaign is kept exactly when it is listed and eligible. */
  lemma {:induction false} FilterEligibleMembers(items: seq<Campaign>, c: Campaign)
    ensures c in FilterEligible(items) <==> c in items && Eligible(c)
    decreases |items|
  {
    if items != [] {
      FilterEligibleMembers(items[1..], c);
      assert items == [items[0]] + items[1..];
    }
  }

  /** With `FilterEligibleAppend`, this pins the filter down: one campaign is kept
      exactly when it is eligible. */
  lemma FilterEligibleSingle(c: Campaign)
    ensures FilterEligible([c]) == if Eligible(c) then [c] else []
  {
    assert [c][1..] == [];
  }

  // ---------------------------------------------------------------------------
  // Quota

  datatype QuotaBody = QuotaBody(remaining: int, cap: int)

  /** What `fetchQuota` returns: the server's `{remaining, cap}`, or the failure default
      with the error message. */
  datatype Quota = Quota(remaining: int, cap: int, error: Option<string>)

  /** `fetchQuota` (bot.js:237-247). */
  function FetchQuota(r: Response<QuotaBody>): (q: Quota)
    ensures r.Failure? ==> q == Quota(0, 0, Some(r.message))
    ensures r.Success? ==> q == Quota(r.data.remaining, r.data.cap, None)
  {
    match r
    case Success(body) => Quota(body.remaining, body.cap, None)
    case Failure(message, _) => Quota(0, 0, Some(message))
  }

  /** `quota.error` is truthy. */
  predicate HasError(q: Quota) {
    Truthy(q.error)
  }

  /** The two skip tests of bot.js:435-447. */
  predicate SkipsOnQuota(q: Quota) {
    HasError(q) || q.remaining <= 0
  }

  /** The failure default is a safe one: a quota that could not be fetched always
      skips the campaign, whatever the error's message (an empty message is falsy
      and slips past the error test, but the zero `remaining` still skips). */
  lemma FailedQuotaSkips(r: Response<QuotaBody>)
    requires r.Failure?
    ensures SkipsOnQuota(FetchQuota(r))
    ensures FetchQuota(r).remaining <= 0
  {
  }

  // ---------------------------------------------------------------------------
  // Null-sentinel operations

  datatype Script = Script(content: string, assignmentId: string)
  datatype Presigned = Presigned(url: string, objectKey: string, fileId: string)

  /** `fetchNextScript`, `getUploadPresigned` and `confirmUpload` (bot.js:249-276,
      296-306): the body on success, `null` on any failure. */
  function OrNull<T>(r: Response<T>): (v: Option<T>)
    ensures v.Some? <==> r.Success?
    ensures v.Some? ==> v.value == r.data
  {
    match r
    case Success(data) => Some(data)
    case Failure(_, _) => None
  }

  /** `uploadToPresigned` (bot.js:278-294): `{ success }` of the PUT. */
  function PutSucceeded<T>(r: Response<T>): (ok: bool)
    ensures ok <==> r.Success?
  {
    r.Success?
  }
}
