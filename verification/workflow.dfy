/**
 * The per-account campaign workflow of `processToken` (bot.js:373-537): for each
 * eligible campaign, a quota check, then up to `min(cap, 3)` upload attempts of
 * script -> synthesis -> presigned slot -> PUT -> confirm -> re-quota, with the
 * attempted / completed / skipped / failed counters and the 15 s and cooldown
 * waits. Every remote answer comes from a scripted oracle.
 */
module Workflow {
  import opened Common
  import opened Request
  import opened Gateway
  import opened Language

  /** The hard-coded per-campaign, per-cycle attempt limit (bot.js:456). */
  const AttemptCap: int := 3
  const CooldownMinSeconds: int := 240
  const CooldownMaxSeconds: int := 450
  /** How many whole seconds `countdownDelay` can pick from: 240 to 450 inclusive. */
  const CooldownSpanSeconds: int := CooldownMaxSeconds - CooldownMinSeconds + 1

  /** What the environment answers during one attempt, step by step. `fileName` is the
      `audio_recording_<Date.now()>.webm` name; `audio` is the synthesized buffer or
      `None` when synthesis fails or times out. */
  datatype AttemptOracle = AttemptOracle(
    script: Option<Script>,
    audio: Option<seq<bv8>>,
    fileName: string,
    presigned: Option<Presigned>,
    putOk: bool,
    confirmed: bool,
    requota: Quota)

  datatype ConfirmPayload = ConfirmPayload(
    contentType: string, objectKey: string, sha256Hash: string, filesize: nat,
    fileName: string, virtualId: string, campaignId: string)

  /** The remote operations one attempt performs, with the arguments that matter. */
  datatype Call =
    | ScriptCall(lang: Option<string>, campaignId: string)
    | SynthCall(text: string, lang: Option<string>)
    | PresignCall(campaignId: string, fileName: string, assignmentId: string)
    | PutCall(url: string, size: nat)
    | ConfirmCall(payload: ConfirmPayload)
    | QuotaCall(campaignId: string)

  /** Where an attempt stopped: one of the four early `continue`s, or the confirm step,
      whose result and the re-fetched `remaining` are kept. */
  datatype AttemptEnd =
    | ScriptNull
    | SynthFailed
    | PresignNull
    | PutFailed
    | ConfirmReached(confirmed: bool, remaining: int)

  /** The attempt counts as completed: confirm returned a record. */
  predicate Completed(e: AttemptEnd) {
    e.ConfirmReached? && e.confirmed
  }

  /** Every step up to the PUT succeeds, so the confirm step and the re-quota run. */
  predicate ReachesConfirm(o: AttemptOracle) {
    o.script.Some? && o.audio.Some? && o.presigned.Some? && o.putOk
  }

  predicate FullySucceeds(o: AttemptOracle) {
    ReachesConfirm(o) && o.confirmed
  }

  /** The attempt re-fetches the quota and finds none left: the loop ends after it. */
  predicate Exhausts(o: AttemptOracle) {
    ReachesConfirm(o) && o.requota.remaining <= 0
  }

  /** The attempt re-fetches the quota and finds some left: the 15 s wait follows. */
  predicate WaitsAfter(o: AttemptOracle) {
    ReachesConfirm(o) && o.requota.remaining > 0
  }

  /** Where one iteration of the loop body (bot.js:459-514) stops, following the
      source's order of steps. */
  function AttemptEndOf(o: AttemptOracle): (e: AttemptEnd)
    ensures e.ConfirmReached? <==> ReachesConfirm(o)
    ensures Completed(e) <==> FullySucceeds(o)
    ensures e.ConfirmReached? ==> e.remaining == o.requota.remaining
  {
    if o.script.None? then ScriptNull
    else if o.audio.None? then SynthFailed
    else if o.presigned.None? then PresignNull
    else if !o.putOk then PutFailed
    else ConfirmReached(o.confirmed, o.requota.remaining)
  }

  /** The calls one iteration of the loop body (bot.js:459-514) makes, in order.
      `digest` stands for the SHA-256 hex digest of the buffer. */
  function AttemptCalls(o: AttemptOracle, c: Campaign, digest: seq<bv8> -> string): (calls: seq<Call>)
    ensures 1 <= |calls| <= 6 && calls[0] == ScriptCall(FirstLanguage(c), c.virtualId)
    ensures QuotaCall(c.virtualId) in calls <==> ReachesConfirm(o)
    ensures (exists k :: 0 <= k < |calls| && calls[k].ConfirmCall?) <==> ReachesConfirm(o)
    ensures forall k :: 0 <= k < |calls| && calls[k].SynthCall? ==> !Unsupported(calls[k].lang)
    ensures |calls| == match AttemptEndOf(o)
      case ScriptNull => 1
      case SynthFailed => 2
      case PresignNull => 3
      case PutFailed => 4
      case ConfirmReached(_, _) => 6
    ensures o.script.Some? ==> calls[1] == SynthCall(o.script.value.content, SynthesisLanguage(FirstLanguage(c)))
    ensures o.script.Some? && o.audio.Some? ==>
      calls[2] == PresignCall(c.virtualId, o.fileName, o.script.value.assignmentId)
    ensures o.script.Some? && o.audio.Some? && o.presigned.Some? ==>
      calls[3] == PutCall(o.presigned.value.url, |o.audio.value|)
    ensures ReachesConfirm(o) ==> calls[4].ConfirmCall? && calls[5] == QuotaCall(c.virtualId)
  {
    var lang := FirstLanguage(c);
    var id := c.virtualId;
    var fetch := [ScriptCall(lang, id)];
    match o.script
    case None => fetch
    case Some(script) =>
      var synth := fetch + [SynthCall(script.content, SynthesisLanguage(lang))];
      match o.audio
      case None => synth
      case Some(buffer) =>
        var presign := synth + [PresignCall(id, o.fileName, script.assignmentId)];
        match o.presigned
        case None => presign
        case Some(slot) =>
          var put := presign + [PutCall(slot.url, |buffer|)];
          if !o.putOk then put
          else
            var payload := ConfirmPayload(
              "audio/webm", slot.objectKey, digest(buffer), |buffer|, o.fileName, slot.fileId, id);
            var calls := put + [ConfirmCall(payload), QuotaCall(id)];
            assert calls[|put|].ConfirmCall?;
            calls
  }

  /** How many of the attempts `lo .. hi - 1` succeed at every step. */
  function CountFullySucceeding(os: seq<AttemptOracle>, lo: nat, hi: nat): nat
    requires lo <= hi <= |os|
    decreases hi - lo
  {
    if lo == hi then 0 else (if FullySucceeds(os[lo]) then 1 else 0) + CountFullySucceeding(os, lo + 1, hi)
  }

  /** How many of the attempts `lo .. hi - 1` find quota left on re-fetching it. */
  function CountWaiting(os: seq<AttemptOracle>, lo: nat, hi: nat): nat
    requires lo <= hi <= |os|
    decreases hi - lo
  {
    if lo == hi then 0 else (if WaitsAfter(os[lo]) then 1 else 0) + CountWaiting(os, lo + 1, hi)
  }

  /** The result of the `while` loop of one campaign: attempts made, uploads counted
      (`uploadCount`), failures counted and 15 s waits taken. */
  datatype LoopReport = LoopReport(attempts: nat, uploads: nat, failed: nat, waits: nat)

  /** The loop of bot.js:456-520 from iteration `i` with `remaining` as
      `currentRemaining`. Early failures leave `remaining` as it was; only the
      re-quota after the confirm step replaces it. */
  function UploadLoop(os: seq<AttemptOracle>, limit: int, i: nat, remaining: int): (r: LoopReport)
    requires limit <= |os| && i <= |os|
    ensures r.attempts == r.uploads + r.failed
    ensures i + r.attempts <= |os|
    ensures remaining <= 0 || limit <= i ==> r.attempts == 0
    ensures 0 < remaining && i < limit ==> 1 <= r.attempts && i + r.attempts <= limit
    decreases limit - i
  {
    if remaining > 0 && i < limit then
      var end := AttemptEndOf(os[i]);
      var next := if end.ConfirmReached? then end.remaining else remaining;
      var rest := UploadLoop(os, limit, i + 1, next);
      var done := if Completed(end) then 1 else 0;
      var wait := if end.ConfirmReached? && next > 0 then 1 else 0;
      LoopReport(1 + rest.attempts, done + rest.uploads, (1 - done) + rest.failed, wait + rest.waits)
    else
      LoopReport(0, 0, 0, 0)
  }

  /** The loop's upload counter agrees with an independent count over the attempts it
      made: the attempts whose every step succeeded. */
  lemma {:induction false} LoopCountsUploads(os: seq<AttemptOracle>, limit: int, i: nat, remaining: int)
    requires limit <= |os| && i <= |os|
    ensures var r := UploadLoop(os, limit, i, remaining);
      r.uploads == CountFullySucceeding(os, i, i + r.attempts)
    decreases limit - i
  {
    var r := UploadLoop(os, limit, i, remaining);
    if remaining > 0 && i < limit {
      var end := AttemptEndOf(os[i]);
      var next := if end.ConfirmReached? then end.remaining else remaining;
      var rest := UploadLoop(os, limit, i + 1, next);
      LoopCountsUploads(os, limit, i + 1, next);
      assert r.attempts == 1 + rest.attempts;
    }
  }

  /** The loop's 15 s waits agree with an independent count over the attempts it made:
      the attempts whose re-quota still showed quota left, the last one included. */
  lemma {:induction false} LoopCountsWaits(os: seq<AttemptOracle>, limit: int, i: nat, remaining: int)
    requires limit <= |os| && i <= |os|
    ensures var r := UploadLoop(os, limit, i, remaining);
      r.waits == CountWaiting(os, i, i + r.attempts)
    decreases limit - i
  {
    var r := UploadLoop(os, limit, i, remaining);
    if remaining > 0 && i < limit {
      var end := AttemptEndOf(os[i]);
      var next := if end.ConfirmReached? then end.remaining else remaining;
      var rest := UploadLoop(os, limit, i + 1, next);
      LoopCountsWaits(os, limit, i + 1, next);
      assert r.attempts == 1 + rest.attempts;
    }
  }

  /** The loop ends on its bound or right after an attempt whose re-quota found no
      quota left, and at no other point: earlier attempts never exhausted the quota. */
  lemma {:induction false} LoopStopsWhenExhausted(os: seq<AttemptOracle>, limit: int, i: nat, remaining: int)
    requires limit <= |os| && i <= |os|
    requires 0 < remaining && i < limit
    ensures var r := UploadLoop(os, limit, i, remaining);
      && (forall k :: i <= k < i + r.attempts - 1 ==> !Exhausts(os[k]))
      && (i + r.attempts == limit || Exhausts(os[i + r.attempts - 1]))
    decreases limit - i
  {
    var r := UploadLoop(os, limit, i, remaining);
    var end := AttemptEndOf(os[i]);
    var next := if end.ConfirmReached? then end.remaining else remaining;
    var rest := UploadLoop(os, limit, i + 1, next);
    assert r.attempts == 1 + rest.attempts;
    if 0 < next && i + 1 < limit {
      LoopStopsWhenExhausted(os, limit, i + 1, next);
      assert !Exhausts(os[i]);
    } else if next <= 0 {
      assert Exhausts(os[i]);
      assert rest.attempts == 0;
    } else {
      assert rest.attempts == 0;
    }
  }

  /** What the environment answers for one campaign: the initial quota and the
      attempts' oracles. */
  datatype CampaignScript = CampaignScript(quota: Quota, attempts: seq<AttemptOracle>)

  /** How one campaign ended: skipped on its quota, worked through the upload loop, or
      aborted by a `TypeError`. The last happens when the campaign lists no language:
      `langName` is then `undefined` and every branch's log line reads its `length`
      (bot.js:436, 443, 449) right after the quota fetch. */
  datatype CampaignReport = Skipped(quota: Quota) | Ran(loop: LoopReport) | Crashed

  /** One campaign of the loop of bot.js:428-527, up to the cooldown decision. */
  function RunCampaign(c: Campaign, s: CampaignScript, digest: seq<bv8> -> string): (r: CampaignReport)
    requires AttemptCap <= |s.attempts|
    ensures r.Crashed? <==> c.supportedLanguages == []
    ensures r.Skipped? <==> c.supportedLanguages != [] && SkipsOnQuota(s.quota)
    ensures r.Ran? ==> r.loop.attempts <= AttemptCap && (s.quota.cap <= 0 ==> r.loop.attempts == 0)
    ensures r.Ran? && 0 < s.quota.cap ==> r.loop.attempts <= s.quota.cap
    ensures r.Ran? && 0 < s.quota.cap ==> 1 <= r.loop.attempts
    ensures r.Ran? ==> r.loop.attempts == r.loop.uploads + r.loop.failed
  {
    if FirstLanguage(c).None? then Crashed
    else if HasError(s.quota) then Skipped(s.quota)
    else if s.quota.remaining <= 0 then Skipped(s.quota)
    else Ran(UploadLoop(s.attempts, Min(s.quota.cap, AttemptCap), 0, s.quota.remaining))
  }

  /** The calls of the attempts made, in order. */
  function AttemptsCalls(os: seq<AttemptOracle>, c: Campaign, digest: seq<bv8> -> string): seq<Call> {
    if os == [] then [] else AttemptCalls(os[0], c, digest) + AttemptsCalls(os[1..], c, digest)
  }

  /** All calls one campaign makes: the initial quota fetch, then those of the
      attempts the loop made. */
  function CampaignCalls(c: Campaign, s: CampaignScript, r: CampaignReport, digest: seq<bv8> -> string): seq<Call>
    requires r.Ran? ==> r.loop.attempts <= |s.attempts|
  {
    [QuotaCall(c.virtualId)] + (if r.Ran? then AttemptsCalls(s.attempts[..r.loop.attempts], c, digest) else [])
  }

  /** Per-account counters (bot.js:423-426). */
  datatype Totals = Totals(attempted: nat, completed: nat, skipped: nat, failed: nat)

  /** The campaign loop's outcome: counters, one report per campaign reached, the number
      of cooldowns taken between campaigns, and whether a campaign aborted the loop
      (and with it `processToken`, whose summary is then never printed). */
  datatype AccountRun = AccountRun(totals: Totals, reports: seq<CampaignReport>, cooldowns: nat, aborted: bool)

  /** Every campaign has an oracle with enough attempts for the cap. */
  predicate Covers(cs: seq<Campaign>, ss: seq<CampaignScript>) {
    |cs| <= |ss| && forall k :: 0 <= k < |ss| ==> AttemptCap <= |ss[k].attempts|
  }

  /** How many of the campaigns `lo .. hi - 1` are skipped for want of quota. */
  function CountSkipping(ss: seq<CampaignScript>, lo: nat, hi: nat): nat
    requires lo <= hi <= |ss|
    decreases hi - lo
  {
    if lo == hi then 0 else (if SkipsOnQuota(ss[lo].quota) then 1 else 0) + CountSkipping(ss, lo + 1, hi)
  }

  /** How many of the campaigns `lo .. hi - 1` run their upload loop. */
  function CountRunning(ss: seq<CampaignScript>, lo: nat, hi: nat): nat
    requires lo <= hi <= |ss|
    decreases hi - lo
  {
    if lo == hi then 0 else (if SkipsOnQuota(ss[lo].quota) then 0 else 1) + CountRunning(ss, lo + 1, hi)
  }

  /** Add one campaign's counts to the totals. */
  function Tally(t: Totals, r: CampaignReport): Totals {
    match r
    case Skipped(_) => t.(skipped := t.skipped + 1)
    case Ran(loop) =>
      Totals(t.attempted + loop.attempts, t.completed + loop.uploads, t.skipped, t.failed + loop.failed)
    case Crashed => t
  }

  /** The first campaign from `j` on that lists no language, or `|cs|` when there is none. */
  function CrashPoint(cs: seq<Campaign>, j: nat): (e: nat)
    requires j <= |cs|
    ensures j <= e <= |cs|
    ensures forall k :: j <= k < e ==> cs[k].supportedLanguages != []
    ensures e < |cs| ==> cs[e].supportedLanguages == []
    decreases |cs| - j
  {
    if j == |cs| || cs[j].supportedLanguages == [] then j else CrashPoint(cs, j + 1)
  }

  /** The campaign loop of bot.js:428-527 from campaign `j`. A campaign that is not
      skipped and not the last is followed by a cooldown; a skipped campaign
      `continue`s before that test and never is. The loop stops at the first campaign
      without a language, which aborts it. */
  function RunCampaigns(cs: seq<Campaign>, ss: seq<CampaignScript>, digest: seq<bv8> -> string, j: nat): (run: AccountRun)
    requires Covers(cs, ss) && j <= |cs|
    ensures var e := CrashPoint(cs, j);
      && run.aborted == (e < |cs|)
      && |run.reports| == (if e < |cs| then e + 1 - j else |cs| - j)
    ensures forall k :: 0 <= k < |run.reports| ==> run.reports[k] == RunCampaign(cs[j + k], ss[j + k], digest)
    ensures run.totals.attempted == run.totals.completed + run.totals.failed
    decreases |cs| - j
  {
    if j == |cs| then AccountRun(Totals(0, 0, 0, 0), [], 0, false)
    else
      var report := RunCampaign(cs[j], ss[j], digest);
      if report.Crashed? then AccountRun(Totals(0, 0, 0, 0), [report], 0, true)
      else
        var rest := RunCampaigns(cs, ss, digest, j + 1);
        var cooldown := if report.Ran? && j < |cs| - 1 then 1 else 0;
        AccountRun(Tally(rest.totals, report), [report] + rest.reports, cooldown + rest.cooldowns, rest.aborted)
  }

  /** The account's counters agree with independent counts over the campaigns reached:
      skips are the campaigns whose quota says skip, at most 3 attempts are made per
      campaign worked on, and a cooldown follows every campaign worked on except the
      last of the list. */
  lemma {:induction false} RunCampaignsCounts(cs: seq<Campaign>, ss: seq<CampaignScript>, digest: seq<bv8> -> string, j: nat)
    requires Covers(cs, ss) && j <= |cs|
    ensures var run := RunCampaigns(cs, ss, digest, j);
      var e := CrashPoint(cs, j);
      && run.totals.skipped == CountSkipping(ss, j, e)
      && run.totals.attempted <= AttemptCap * (e - j - run.totals.skipped)
      && run.cooldowns == if e < |cs| then CountRunning(ss, j, e) else if j < |cs| then CountRunning(ss, j, |cs| - 1) else 0
    decreases |cs| - j
  {
    if j < |cs| && cs[j].supportedLanguages != [] {
      RunCampaignsCounts(cs, ss, digest, j + 1);
      assert CrashPoint(cs, j) == CrashPoint(cs, j + 1);
    }
  }

  /** The component-wise sum of the loop counts of the campaigns among `rs` that ran
      their upload loop. */
  function SumLoops(rs: seq<CampaignReport>): LoopReport
    decreases |rs|
  {
    if rs == [] then LoopReport(0, 0, 0, 0)
    else
      var l := if rs[0].Ran? then rs[0].loop else LoopReport(0, 0, 0, 0);
      var rest := SumLoops(rs[1..]);
      LoopReport(l.attempts + rest.attempts, l.uploads + rest.uploads, l.failed + rest.failed, l.waits + rest.waits)
  }

  /** The account's attempted, completed and failed counters are the sums of the
      attempts, uploads and failures of the upload loops of the campaigns reached:
      `totalCompleted` grows only where `uploadCount` does (bot.js:505-511). */
  lemma {:induction false} RunCampaignsTotals(cs: seq<Campaign>, ss: seq<CampaignScript>, digest: seq<bv8> -> string, j: nat)
    requires Covers(cs, ss) && j <= |cs|
    ensures var run := RunCampaigns(cs, ss, digest, j);
      var sum := SumLoops(run.reports);
      && run.totals.attempted == sum.attempts
      && run.totals.completed == sum.uploads
      && run.totals.failed == sum.failed
    decreases |cs| - j
  {
    if j < |cs| {
      var report := RunCampaign(cs[j], ss[j], digest);
      if report.Crashed? {
        assert [report][1..] == [];
      } else {
        var rest := RunCampaigns(cs, ss, digest, j + 1);
        RunCampaignsTotals(cs, ss, digest, j + 1);
        assert ([report] + rest.reports)[1..] == rest.reports;
      }
    }
  }

  /** What the environment answers for one account. */
  datatype AccountScript = AccountScript(
    profile: Response<Profile>, listing: Response<seq<Campaign>>, campaigns: seq<CampaignScript>)

  datatype AccountReport =
    | AuthFailed(info: UserInfo)
    | ListingFailed(error: string)
    | Processed(found: nat, run: AccountRun)

  /** `processToken` (bot.js:373-537) without its console output. A `Processed` report
      whose run is `aborted` stands for the `TypeError` that `runCycle` catches. The
      profile comes from `fetchUserInfo` as written, so an authentication failure
      never carries the HTTP status and is reported as 'Failed (Unknown)'. */
  function ProcessToken(s: AccountScript, digest: seq<bv8> -> string): (r: AccountReport)
    requires s.listing.Success? ==> Covers(FilterEligible(s.listing.data), s.campaigns)
    ensures r.AuthFailed? <==> s.profile.Failure?
    ensures r.AuthFailed? ==> r.info.status == None && r.info.error == Some(s.profile.message)
    ensures r.ListingFailed? <==> s.profile.Success? && s.listing.Failure?
    ensures r.Processed? ==> r.found == |FilterEligible(s.listing.data)|
    ensures r.Processed? ==> r.run == RunCampaigns(FilterEligible(s.listing.data), s.campaigns, digest, 0)
    ensures r.Processed? ==> forall k :: 0 <= k < |r.run.reports| ==>
      r.run.reports[k] == RunCampaign(FilterEligible(s.listing.data)[k], s.campaigns[k], digest)
    ensures r.Processed? && r.run.aborted ==> |r.run.reports| == CrashPoint(FilterEligible(s.listing.data), 0) + 1
    ensures r.Processed? ==> r.run.totals.attempted == r.run.totals.completed + r.run.totals.failed
    ensures r.Processed? ==>
      var sum := SumLoops(r.run.reports);
      r.run.totals.attempted == sum.attempts && r.run.totals.completed == sum.uploads
      && r.run.totals.failed == sum.failed
    ensures r.Processed? ==>
      (r.run.aborted <==> exists k :: 0 <= k < r.found && FilterEligible(s.listing.data)[k].supportedLanguages == [])
    ensures r.Processed? && !r.run.aborted ==>
      |r.run.reports| == r.found && r.run.totals.skipped + CountRunning(s.campaigns, 0, r.found) == r.found
  {
    var info := FetchUserInfoAsWritten(s.profile);
    if !info.success then AuthFailed(info)
    else match FetchCampaigns(s.listing)
      case ListFailed(error) => ListingFailed(error)
      case Listed(campaigns) =>
        var run := RunCampaigns(campaigns, s.campaigns, digest, 0);
        RunCampaignsCounts(campaigns, s.campaigns, digest, 0);
        RunCampaignsTotals(campaigns, s.campaigns, digest, 0);
        SkippingPlusRunning(s.campaigns, 0, |campaigns|);
        var e := CrashPoint(campaigns, 0);
        assert e < |campaigns| ==> campaigns[e].supportedLanguages == [];
        Processed(|campaigns|, run)
  }

  /** `processToken` with `fetchUserInfo` corrected to keep the status of the failed
      profile request: the same account run, and an authentication failure that
      carries the HTTP status. */
  function ProcessTokenCorrected(s: AccountScript, digest: seq<bv8> -> string): (r: AccountReport)
    requires s.listing.Success? ==> Covers(FilterEligible(s.listing.data), s.campaigns)
    ensures r.AuthFailed? <==> s.profile.Failure?
    ensures r.AuthFailed? ==>
      r.info.status == s.profile.status && r.info.error == Some(s.profile.message)
      && r.info == ProcessToken(s, digest).info.(status := s.profile.status)
    ensures !r.AuthFailed? ==> r == ProcessToken(s, digest)
  {
    var info := FetchUserInfo(s.profile);
    if !info.success then AuthFailed(info) else ProcessToken(s, digest)
  }

  /** An account whose profile request is refused with 404 is reported without a
      status as written, and with 404 once corrected. */
  lemma AccountAuthStatusLost(s: AccountScript, digest: seq<bv8> -> string)
    requires s.profile == Failure("Not Found", Some(404))
    requires s.listing.Success? ==> Covers(FilterEligible(s.listing.data), s.campaigns)
    ensures ProcessToken(s, digest).AuthFailed? && ProcessToken(s, digest).info.status == None
    ensures ProcessTokenCorrected(s, digest).AuthFailed? && ProcessTokenCorrected(s, digest).info.status == Some(404)
  {
  }

  /** `countdownDelay`'s wait (bot.js:325-327): `floor(roll * 211) + 240` seconds. */
  function CooldownSeconds(roll: real): (seconds: int)
    requires 0.0 <= roll < 1.0
    ensures CooldownMinSeconds <= seconds <= CooldownMaxSeconds
  {
    (roll * CooldownSpanSeconds as real).Floor + CooldownMinSeconds
  }

  // ---------------------------------------------------------------------------
  // Properties

  lemma {:induction false} SkippingPlusRunning(ss: seq<CampaignScript>, lo: nat, hi: nat)
    requires lo <= hi <= |ss|
    ensures CountSkipping(ss, lo, hi) + CountRunning(ss, lo, hi) == hi - lo
    decreases hi - lo
  {
    if lo < hi {
      SkippingPlusRunning(ss, lo + 1, hi);
    }
  }

  /** The confirm payload describes the upload just made: the bytes that were PUT
      (size and digest), and the file name, slot and campaign of the presign request. */
  lemma ConfirmDescribesUpload(o: AttemptOracle, c: Campaign, digest: seq<bv8> -> string)
    requires ReachesConfirm(o)
    ensures var calls := AttemptCalls(o, c, digest);
      var p := calls[4].payload;
      && |calls| == 6
      && calls[2] == PresignCall(c.virtualId, p.fileName, o.script.value.assignmentId)
      && calls[3] == PutCall(o.presigned.value.url, p.filesize)
      && calls[4].ConfirmCall?
      && calls[5] == QuotaCall(c.virtualId)
      && p == ConfirmPayload("audio/webm", o.presigned.value.objectKey, digest(o.audio.value),
                             |o.audio.value|, o.fileName, o.presigned.value.fileId, c.virtualId)
  {
  }

  /** A successful PUT alone is not an upload: when confirm fails, the attempt counts
      as failed although the bytes were stored. */
  lemma FailedConfirmIsAFailure(o: AttemptOracle, c: Campaign, digest: seq<bv8> -> string)
    requires ReachesConfirm(o) && !o.confirmed
    ensures AttemptEndOf(o) == ConfirmReached(false, o.requota.remaining)
    ensures PutCall(o.presigned.value.url, |o.audio.value|) in AttemptCalls(o, c, digest)
  {
    var calls := AttemptCalls(o, c, digest);
    assert calls[3] == PutCall(o.presigned.value.url, |o.audio.value|);
  }

  /** A campaign skipped on its quota, or aborted for want of a language, makes no call
      beyond the quota fetch. */
  lemma SkippedCampaignMakesNoCalls(c: Campaign, s: CampaignScript, digest: seq<bv8> -> string)
    requires AttemptCap <= |s.attempts| && (SkipsOnQuota(s.quota) || c.supportedLanguages == [])
    ensures CampaignCalls(c, s, RunCampaign(c, s, digest), digest) == [QuotaCall(c.virtualId)]
  {
  }

  /** The 15 s wait depends only on the re-fetched quota: with cap 1 and quota left
      after the single attempt, the loop waits 15 s and then ends on its bound. */
  lemma WaitBeforeBoundEnds(o: AttemptOracle, c: Campaign, digest: seq<bv8> -> string, remaining: int)
    requires 0 < remaining && WaitsAfter(o) && c.supportedLanguages != []
    ensures var s := CampaignScript(Quota(remaining, 1, None), [o, o, o]);
      var r := RunCampaign(c, s, digest);
      r.Ran? && r.loop.attempts == 1 && r.loop.waits == 1
  {
    var os := [o, o, o];
    assert os[0..1] == [o];
    assert os[0..1][1..] == [];
  }

  /** With all steps succeeding and quota to spare, a campaign makes exactly
      `min(cap, 3)` attempts and completes all of them, re-fetching the quota after
      each. */
  lemma AllSucceedUsesFullCap(c: Campaign, s: CampaignScript, digest: seq<bv8> -> string)
    requires AttemptCap <= |s.attempts| && !SkipsOnQuota(s.quota) && 0 < s.quota.cap
    requires c.supportedLanguages != []
    requires forall k :: 0 <= k < |s.attempts| ==> FullySucceeds(s.attempts[k]) && !Exhausts(s.attempts[k])
    ensures var r := RunCampaign(c, s, digest);
      && r.Ran?
      && r.loop.attempts == Min(s.quota.cap, AttemptCap)
      && r.loop.uploads == r.loop.attempts
      && r.loop.failed == 0
  {
    var r := RunCampaign(c, s, digest);
    var n := r.loop.attempts;
    LoopCountsUploads(s.attempts, Min(s.quota.cap, AttemptCap), 0, s.quota.remaining);
    LoopStopsWhenExhausted(s.attempts, Min(s.quota.cap, AttemptCap), 0, s.quota.remaining);
    AllCounted(s.attempts, 0, n);
  }

  lemma {:induction false} AllCounted(os: seq<AttemptOracle>, lo: nat, hi: nat)
    requires lo <= hi <= |os|
    requires forall k :: lo <= k < hi ==> FullySucceeds(os[k])
    ensures CountFullySucceeding(os, lo, hi) == hi - lo
    decreases hi - lo
  {
    if lo < hi {
      AllCounted(os, lo + 1, hi);
    }
  }

  /** The end-to-end single-upload scenario: one campaign with remaining 1 and cap 1,
      every step succeeding and the re-quota reporting 0, gives attempted 1,
      completed 1, skipped 0, failed 0 and no cooldown. */
  lemma SingleUploadScenario(c: Campaign, o: AttemptOracle, digest: seq<bv8> -> string)
    requires FullySucceeds(o) && o.requota.remaining == 0 && c.supportedLanguages != []
    ensures var s := CampaignScript(Quota(1, 1, None), [o, o, o]);
      var run := RunCampaigns([c], [s], digest, 0);
      run.totals == Totals(1, 1, 0, 0) && run.cooldowns == 0 && !run.aborted
  {
    var s := CampaignScript(Quota(1, 1, None), [o, o, o]);
    SingleUploadCampaign(c, o, digest);
    OneCampaignAccount(c, s, digest);
  }

  /** An account with a single campaign takes no cooldown, and its totals are that
      campaign's counts. */
  lemma OneCampaignAccount(c: Campaign, s: CampaignScript, digest: seq<bv8> -> string)
    requires AttemptCap <= |s.attempts| && c.supportedLanguages != []
    ensures var report := RunCampaign(c, s, digest);
      RunCampaigns([c], [s], digest, 0) == AccountRun(Tally(Totals(0, 0, 0, 0), report), [report], 0, false)
  {
    var cs, ss := [c], [s];
    assert cs[0] == c && ss[0] == s;
    var rest := RunCampaigns(cs, ss, digest, 1);
    assert rest == AccountRun(Totals(0, 0, 0, 0), [], 0, false);
    assert [RunCampaign(c, s, digest)] + rest.reports == [RunCampaign(c, s, digest)];
  }

  lemma SingleUploadCampaign(c: Campaign, o: AttemptOracle, digest: seq<bv8> -> string)
    requires FullySucceeds(o) && o.requota.remaining == 0 && c.supportedLanguages != []
    ensures RunCampaign(c, CampaignScript(Quota(1, 1, None), [o, o, o]), digest) == Ran(LoopReport(1, 1, 0, 0))
  {
    var os := [o, o, o];
    assert AttemptEndOf(o) == ConfirmReached(true, 0);
    assert UploadLoop(os, 1, 1, 0) == LoopReport(0, 0, 0, 0);
    assert UploadLoop(os, 1, 0, 1) == LoopReport(1, 1, 0, 0);
  }

  /** Every value of the cooldown range can occur. */
  lemma EveryCooldownReachable(seconds: int)
    requires CooldownMinSeconds <= seconds <= CooldownMaxSeconds
    ensures CooldownSeconds((seconds - CooldownMinSeconds) as real / CooldownSpanSeconds as real) == seconds
  {
    var roll := (seconds - CooldownMinSeconds) as real / CooldownSpanSeconds as real;
    assert roll * CooldownSpanSeconds as real == (seconds - CooldownMinSeconds) as real;
  }
}
