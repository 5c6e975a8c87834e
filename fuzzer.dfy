/**
 * Fuzz campaign records (backend/src/services/fuzzer.rs). The background
 * task that would drive the fuzzer is not part of this model.
 */
module FuzzerService {
  import opened Models

  const ZERO_STATS := FuzzStats(0, 0, 0, 0.0, 0.0, 0)

  /** Every campaign is named after its id. */
  function CampaignName(id: Uuid): string
  {
    "Campaign-" + UuidText(id)
  }

  /** Distinct campaigns get distinct names. */
  lemma CampaignNamesDistinct(a: Uuid, b: Uuid)
    requires a != b
    ensures CampaignName(a) != CampaignName(b)
  {
    if CampaignName(a) == CampaignName(b) {
      assert UuidText(a) == CampaignName(a)[9..];
      UuidTextInjective(a, b);
    }
  }

  /** `start_fuzzing`: a fresh, running campaign; the id and the start time are inputs. */
  function StartFuzzing(req: FuzzStartRequest, campaignId: Uuid, startedAt: Timestamp): (c: FuzzCampaign)
    ensures c.id == campaignId && c.name == CampaignName(campaignId)
    ensures c.status == FuzzStatus.Running && c.stoppedAt == None && c.startedAt == startedAt
    ensures c.targetBinary == req.targetBinary
    ensures c.stats.executions == 0 && c.stats.crashes == 0 && c.stats.corpusSize == 0 && c.stats.mutationsApplied == 0
  {
    FuzzCampaign(campaignId, CampaignName(campaignId), FuzzStatus.Running, req.targetBinary,
                 ZERO_STATS, startedAt, None)
  }

  /** `stop_fuzzing`: nothing to stop yet; it reports success for every id. */
  function StopFuzzing(campaignId: Uuid): (stopped: bool)
    ensures stopped
  {
    true
  }

  /** `get_campaign_status`: a simulated running campaign for whatever id is asked, started five minutes ago. */
  function GetCampaignStatus(campaignId: Uuid, now: Timestamp): (r: Option<FuzzCampaign>)
    ensures r.Some? && r.value.id == campaignId && r.value.status == FuzzStatus.Running
    ensures r.value.name == CampaignName(campaignId) && r.value.stoppedAt == None
    ensures r.value.startedAt == now - 5 * MINUTE_MS && r.value.startedAt < now
  {
    Some(FuzzCampaign(campaignId, CampaignName(campaignId), FuzzStatus.Running, "test_target",
                      FuzzStats(15234, 3, 127, 78.5, 1234.5, 15234),
                      now - 5 * MINUTE_MS, None))
  }

  /**
   * `get_crashes`: three simulated crashes of the campaign, discovered three, two
   * and one minute(s) ago. The three fresh ids and the clock are inputs.
   */
  function GetCrashes(campaignId: Uuid, ids: (Uuid, Uuid, Uuid), now: Timestamp): (r: seq<CrashInfo>)
    ensures |r| == 3
    ensures forall i :: 0 <= i < |r| ==> r[i].campaignId == campaignId
    ensures [r[0].signal, r[1].signal, r[2].signal] == [Some(11), Some(6), Some(11)]
    ensures r[0].discoveredAt < r[1].discoveredAt < r[2].discoveredAt < now
  {
    [ CrashInfo(ids.0, campaignId, "\\x00\\x01\\x02\\x03\\x04\\x05", Some(11), "Segmentation fault", now - 3 * MINUTE_MS),
      CrashInfo(ids.1, campaignId, "AAAAAAAAAA", Some(6), "Abort called", now - 2 * MINUTE_MS),
      CrashInfo(ids.2, campaignId, "\\xff\\xff\\xff\\xff", Some(11), "Buffer overflow detected", now - MINUTE_MS) ]
  }
}
