/**
 * The fuzzing console page (frontend/src/pages/FuzzingConsole.tsx): the campaign
 * it follows, that campaign's crashes, and the start and stop buttons.
 *
 * Follow-up requests the handlers fire without awaiting them (`loadCampaigns()`
 * after a start or stop, `loadCrashes(id)` after a poll) are returned to the
 * caller, which delivers their outcomes through the matching method.
 */
module FuzzingConsolePage {
  import opened Models

  /** The body the Start button posts; no timeout is sent. */
  const START_REQUEST: FuzzStartRequest := FuzzStartRequest("test_target", "/tmp/corpus", "/tmp/crashes", None)

  /** `campaigns.find(c => c.status === 'Running')`. */
  function FirstRunning(campaigns: seq<FuzzCampaign>): (r: Option<FuzzCampaign>)
    ensures r.Some? ==> r.value in campaigns && r.value.status == FuzzStatus.Running
    ensures r.None? <==> forall i :: 0 <= i < |campaigns| ==> campaigns[i].status != FuzzStatus.Running
  {
    if campaigns == [] then None
    else if campaigns[0].status == FuzzStatus.Running then Some(campaigns[0])
    else FirstRunning(campaigns[1..])
  }

  /** The campaign found is the earliest running one in the list. */
  lemma {:induction false} FirstRunningIsEarliest(campaigns: seq<FuzzCampaign>)
    requires FirstRunning(campaigns).Some?
    ensures exists i :: 0 <= i < |campaigns| && campaigns[i] == FirstRunning(campaigns).value
                        && forall j :: 0 <= j < i ==> campaigns[j].status != FuzzStatus.Running
  {
    if campaigns[0].status != FuzzStatus.Running {
      var tail := campaigns[1..];
      FirstRunningIsEarliest(tail);
      var i :| 0 <= i < |tail| && tail[i] == FirstRunning(tail).value
               && forall j :: 0 <= j < i ==> tail[j].status != FuzzStatus.Running;
      assert campaigns[i + 1] == tail[i];
      forall j | 0 <= j < i + 1
        ensures campaigns[j].status != FuzzStatus.Running
      {
        if j > 0 {
          assert campaigns[j] == tail[j - 1];
        }
      }
    }
  }

  /** The component's state slots. */
  class FuzzingConsole {
    var activeCampaign: Option<FuzzCampaign>
    var crashes: seq<CrashInfo>
    var loading: bool

    /**
     * The header shows Stop while the followed campaign is running and Start otherwise,
     * so a second start is never offered while the page follows a running campaign.
     */
    predicate StopOffered()
      reads this
    {
      activeCampaign.Some? && activeCampaign.value.status == FuzzStatus.Running
    }

    constructor ()
      ensures activeCampaign == None && crashes == [] && !loading
      ensures !StopOffered()
    {
      activeCampaign := None;
      crashes := [];
      loading := false;
    }

    /**
     * `loadCampaigns`, on mount and every 2 seconds: follows the first running
     * campaign and asks for its crashes. With none running, or a failed fetch,
     * the campaign followed so far and its crashes stay on screen.
     */
    method LoadCampaigns(fetched: Result<seq<FuzzCampaign>>) returns (crashFetch: Option<Uuid>)
      modifies this
      ensures fetched.Ok? && FirstRunning(fetched.value).Some? ==>
                && activeCampaign == FirstRunning(fetched.value)
                && crashFetch == Some(activeCampaign.value.id)
      ensures fetched.Err? || FirstRunning(fetched.value).None? ==>
                activeCampaign == old(activeCampaign) && crashFetch == None
      ensures fetched.Ok? && FirstRunning(fetched.value).Some? ==> StopOffered()
      ensures crashes == old(crashes) && loading == old(loading)
    {
      crashFetch := None;
      if fetched.Ok? {
        var active := FirstRunning(fetched.value);
        if active.Some? {
          activeCampaign := active;
          crashFetch := Some(active.value.id);
        }
      }
    }

    /** `loadCrashes`: a fetched list replaces the shown one; a failed fetch keeps it. */
    method LoadCrashes(fetched: Result<seq<CrashInfo>>)
      modifies this
      ensures fetched.Ok? ==> crashes == fetched.value
      ensures fetched.Err? ==> crashes == old(crashes)
      ensures activeCampaign == old(activeCampaign) && loading == old(loading)
    {
      if fetched.Ok? {
        crashes := fetched.value;
      }
    }

    /**
     * `handleStartFuzzing`: posts the fixed request; a started campaign becomes the
     * one followed and a reload is fired. The busy mark is cleared either way.
     */
    method HandleStartFuzzing(fetched: Result<FuzzCampaign>) returns (request: FuzzStartRequest, reload: bool)
      modifies this
      ensures request == START_REQUEST
      ensures fetched.Ok? ==> activeCampaign == Some(fetched.value)
      ensures fetched.Err? ==> activeCampaign == old(activeCampaign)
      ensures reload <==> fetched.Ok?
      ensures !loading && crashes == old(crashes)
      ensures fetched.Ok? ==> (StopOffered() <==> fetched.value.status == FuzzStatus.Running)
    {
      loading := true;
      request := START_REQUEST;
      reload := false;
      if fetched.Ok? {
        activeCampaign := Some(fetched.value);
        reload := true;
      }
      loading := false;
    }

    /**
     * `handleStopFuzzing`: without a followed campaign, does nothing and sends nothing.
     * Otherwise asks the backend to stop it (the reply's body is not read) and fires a
     * reload when that succeeds; the followed campaign itself is not touched.
     */
    method HandleStopFuzzing(fetched: Result<()>) returns (stopRequest: Option<Uuid>, reload: bool)
      modifies this
      ensures old(activeCampaign).None? ==>
                stopRequest == None && !reload && loading == old(loading)
      ensures old(activeCampaign).Some? ==>
                stopRequest == Some(old(activeCampaign).value.id) && (reload <==> fetched.Ok?) && !loading
      ensures activeCampaign == old(activeCampaign) && crashes == old(crashes)
    {
      if activeCampaign.None? {
        return None, false;
      }
      loading := true;
      stopRequest := Some(activeCampaign.value.id);
      reload := fetched.Ok?;
      loading := false;
    }
  }
}
