/** The Dashboard page (frontend/src/pages/Dashboard.jsx): the profile
    fetch, the copy-to-clipboard acknowledgement with its reset timer, the
    display fallbacks, and the rewards counter. */
module Dashboard {
  import opened Common
  import opened Api
  import opened Fetching
  import Server

  const FetchError := "Failed to fetch intern data"

  /** Milliseconds between a successful copy and its scheduled reset. */
  const ResetDelay := 2000

  // ---------------------------------------------------------------------
  // Display fallbacks

  /** The profile as the page receives it: untyped JSON in which any field
      may be missing. */
  datatype InternPayload = InternPayload(name: Option<string>, referralCode: Option<string>, donations: Option<int>)

  /** The JSON the server's profile record turns into. */
  function PayloadOf(p: InternProfile): InternPayload {
    InternPayload(Some(p.name), Some(p.referralCode), Some(p.donations))
  }

  /** `internData?.referralCode` is truthy: the copy button has something to
      copy. */
  predicate HasReferralCode(data: Option<InternPayload>): (b: bool)
    ensures b <==> data.Some? && data.value.referralCode.Some? && |data.value.referralCode.value| > 0
  {
    data.Some? && Truthy(data.value.referralCode)
  }

  /** The donations figure: a present amount is shown through
      `toLocaleString`, whose locale-dependent text is left abstract. */
  datatype AmountText = Localized(amount: int) | Literal(text: string)

  /** `internData?.donations?.toLocaleString() || '0'`: a formatted number
      is never empty, so the `'0'` literal appears exactly when the amount
      is missing. */
  function DonationsText(data: Option<InternPayload>): (t: AmountText)
    ensures t == Literal("0") <==> data.None? || data.value.donations.None?
    ensures t.Localized? ==> data.Some? && data.value.donations == Some(t.amount)
  {
    if data.Some? && data.value.donations.Some? then Localized(data.value.donations.value)
    else Literal("0")
  }

  /** `internData?.referralCode || 'N/A'` */
  function ReferralText(data: Option<InternPayload>): (t: string)
    ensures HasReferralCode(data) ==> t == data.value.referralCode.value && t != ""
    ensures !HasReferralCode(data) ==> t == "N/A"
  {
    if HasReferralCode(data) then data.value.referralCode.value else "N/A"
  }

  /** The copy button's label. */
  function CopyLabel(copied: bool): (text: string)
    ensures text == "Copied!" <==> copied
    ensures !copied ==> text == "Copy code"
  {
    if copied then "Copied!" else "Copy code"
  }

  /** What the page shows for the server's profile. */
  lemma ServerProfileDisplay()
    ensures var data := Some(PayloadOf(Server.InternData));
            && HasReferralCode(data)
            && DonationsText(data) == Localized(7400)
            && ReferralText(data) == "vishwavy2025"
  {
  }

  // ---------------------------------------------------------------------
  // Rewards

  datatype Reward = Reward(id: nat, name: string, description: string, unlocked: bool, progress: nat)

  /** The page's fixed list of rewards. */
  const Rewards := [
    Reward(1, "Early Access Pass", "Get early access to new features", true, 100),
    Reward(2, "Premium Badge", "Exclusive premium status badge", false, 75),
    Reward(3, "Mentor Session", "1-on-1 session with senior developer", false, 50),
    Reward(4, "Conference Ticket", "Free ticket to tech conference", false, 25)
  ]

  /** `rewards.filter(r => r.unlocked)`: every unlocked reward, as often as
      it occurs, and nothing else. */
  function UnlockedRewards(rewards: seq<Reward>): (u: seq<Reward>)
    ensures forall x :: multiset(u)[x] == if x.unlocked then multiset(rewards)[x] else 0
  {
    if rewards == [] then []
    else
      assert rewards == [rewards[0]] + rewards[1..];
      (if rewards[0].unlocked then [rewards[0]] else []) + UnlockedRewards(rewards[1..])
  }

  /** The counter never exceeds the list, and equals it exactly when every
      reward is unlocked. */
  lemma {:induction false} UnlockedCountBounds(rewards: seq<Reward>)
    ensures |UnlockedRewards(rewards)| <= |rewards|
    ensures |UnlockedRewards(rewards)| == |rewards| <==> forall i :: 0 <= i < |rewards| ==> rewards[i].unlocked
  {
    if rewards != [] {
      var tail := rewards[1..];
      UnlockedCountBounds(tail);
      assert forall i :: 0 < i < |rewards| ==> rewards[i] == tail[i - 1];
      if (forall i :: 0 <= i < |tail| ==> tail[i].unlocked) && rewards[0].unlocked {
        forall i | 0 <= i < |rewards| ensures rewards[i].unlocked {
          if i > 0 {
            assert rewards[i] == tail[i - 1];
          }
        }
      }
    }
  }

  /** "1 of 4 unlocked". */
  lemma RewardsSummary()
    ensures UnlockedRewards(Rewards) == [Rewards[0]]
    ensures |UnlockedRewards(Rewards)| == 1 && |Rewards| == 4
  {
    assert Rewards[1..][1..][1..][1..] == [];
  }

  // ---------------------------------------------------------------------
  // Fetch, copy and the reset timers

  /** The page's state hooks, together with the clock (milliseconds) and
      the deadlines of the reset timers scheduled and not yet fired, oldest
      first. No timer is ever cancelled. */
  datatype DashboardState = DashboardState(
    fetch: FetchState<Option<InternPayload>>,
    copied: bool,
    now: int,
    resets: seq<int>)

  /** Mount: no data, loading, no error, nothing copied, no timers. */
  function InitialDashboard(): DashboardState {
    DashboardState(Initial(None), false, 0, [])
  }

  /** Timers fire in the order they were set; none is overdue or further
      away than the delay; the acknowledgement is showing only while some
      reset is still pending, so it always goes away again. */
  predicate Wf(st: DashboardState) {
    && (forall i, j :: 0 <= i < j < |st.resets| ==> st.resets[i] <= st.resets[j])
    && (forall i :: 0 <= i < |st.resets| ==> st.now <= st.resets[i] <= st.now + ResetDelay)
    && (st.copied ==> st.resets != [])
  }

  /** `fetchInternData` with the request's outcome (a JSON payload, possibly
      null, or a failure). */
  function FetchStep(st: DashboardState, outcome: Outcome<Option<InternPayload>>): (r: DashboardState)
    ensures !r.fetch.loading
    ensures r.copied == st.copied && r.now == st.now && r.resets == st.resets
  {
    st.(fetch := Fetch(st.fetch, outcome, FetchError))
  }

  /** `copyReferralCode` with the clipboard write's result. Without a code
      nothing happens; a failed write changes nothing; a successful one
      shows the acknowledgement and schedules one reset. */
  function CopyStep(st: DashboardState, clipboardOk: bool): (r: DashboardState)
    ensures r.fetch == st.fetch && r.now == st.now
    ensures r.copied == (st.copied || (HasReferralCode(st.fetch.data) && clipboardOk))
    ensures r.resets == st.resets + if HasReferralCode(st.fetch.data) && clipboardOk then [st.now + ResetDelay] else []
  {
    if HasReferralCode(st.fetch.data) && clipboardOk then
      st.(copied := true, resets := st.resets + [st.now + ResetDelay])
    else st
  }

  /** Time passes; timers are not late, so the clock never passes a pending
      deadline. */
  function ElapseStep(st: DashboardState, ms: nat): (r: DashboardState)
    requires st.resets == [] || st.now + ms <= st.resets[0]
    ensures r.now == st.now + ms && r.now >= st.now
    ensures r.resets == [] || r.now <= r.resets[0]
    ensures r.fetch == st.fetch && r.copied == st.copied && r.resets == st.resets
  {
    st.(now := st.now + ms)
  }

  /** The oldest pending reset fires at its deadline: `setCopied(false)`,
      whichever copy scheduled it. */
  function TimerStep(st: DashboardState): (r: DashboardState)
    requires st.resets != []
    ensures !r.copied && r.now == st.resets[0]
    ensures |r.resets| == |st.resets| - 1
    ensures forall i :: 0 <= i < |r.resets| ==> r.resets[i] == st.resets[i + 1]
    ensures r.fetch == st.fetch
  {
    st.(now := st.resets[0], copied := false, resets := st.resets[1..])
  }

  lemma InitialWf()
    ensures Wf(InitialDashboard())
    ensures ScreenOf(InitialDashboard().fetch) == Spinner && !InitialDashboard().copied
  {
  }

  lemma FetchStepPreservesWf(st: DashboardState, outcome: Outcome<Option<InternPayload>>)
    requires Wf(st)
    ensures Wf(FetchStep(st, outcome))
  {
  }

  lemma CopyStepPreservesWf(st: DashboardState, clipboardOk: bool)
    requires Wf(st)
    ensures Wf(CopyStep(st, clipboardOk))
  {
  }

  lemma ElapseStepPreservesWf(st: DashboardState, ms: nat)
    requires Wf(st)
    requires st.resets == [] || st.now + ms <= st.resets[0]
    ensures Wf(ElapseStep(st, ms))
  {
  }

  lemma TimerStepPreservesWf(st: DashboardState)
    requires Wf(st) && st.resets != []
    ensures Wf(TimerStep(st))
  {
    var r := TimerStep(st);
    forall i | 0 <= i < |r.resets| ensures r.now <= r.resets[i] <= r.now + ResetDelay {
      assert r.resets[i] == st.resets[i + 1];
    }
  }

  /** Lets every pending timer fire, in order. */
  function FireAll(st: DashboardState): DashboardState
    decreases |st.resets|
  {
    if st.resets == [] then st else FireAll(TimerStep(st))
  }

  /** Left alone, the page clears the acknowledgement by the last pending
      deadline, keeps its fetch state, and ends with no timers. */
  lemma {:induction false} FireAllClears(st: DashboardState)
    requires Wf(st) && st.resets != []
    ensures var f := FireAll(st);
            && !f.copied && f.resets == [] && f.fetch == st.fetch
            && f.now == st.resets[|st.resets| - 1]
    decreases |st.resets|
  {
    var t := TimerStep(st);
    TimerStepPreservesWf(st);
    if t.resets != [] {
      FireAllClears(t);
      assert t.resets[|t.resets| - 1] == st.resets[|st.resets| - 1];
    }
  }

  /** A successful copy shows "Copied!" and schedules one more reset; left
      alone, the flag is cleared by the last pending deadline, which is the
      new one, `ResetDelay` milliseconds after the copy. An older pending
      reset may clear it sooner (see below). */
  lemma AcknowledgementLastsDelay(st: DashboardState)
    requires Wf(st) && HasReferralCode(st.fetch.data)
    ensures var c := CopyStep(st, true);
            && CopyLabel(c.copied) == "Copied!"
            && |c.resets| == |st.resets| + 1
            && !FireAll(c).copied
            && FireAll(c).now == st.now + ResetDelay
  {
    CopyStepPreservesWf(st, true);
    FireAllClears(CopyStep(st, true));
  }

  /** A lone copy (no older reset pending): the label reads "Copied!" at
      every moment up to the deadline, and the one timer takes it away
      exactly `ResetDelay` milliseconds after the copy. */
  lemma LoneCopyLastsDelay(st: DashboardState, ms: nat)
    requires Wf(st) && st.resets == [] && HasReferralCode(st.fetch.data)
    requires ms <= ResetDelay
    ensures var c := CopyStep(st, true);
            && ElapseStep(c, ms).copied
            && ElapseStep(c, ms).resets == [st.now + ResetDelay]
            && var f := TimerStep(ElapseStep(c, ResetDelay));
               !f.copied && f.now == st.now + ResetDelay && f.resets == []
  {
  }

  /** Copy, wait `gap` ms, copy again, wait until the first deadline: the
      first copy's timer clears the flag although the second copy set it
      less than `ResetDelay` ms before, and the second timer is still
      pending. */
  lemma EarlierTimerCutsAcknowledgementShort(st: DashboardState, gap: nat)
    requires Wf(st) && st.resets == [] && HasReferralCode(st.fetch.data)
    requires 0 < gap < ResetDelay
    ensures var s1 := CopyStep(st, true);
            var s2 := ElapseStep(s1, gap);
            var s3 := CopyStep(s2, true);
            var s4 := ElapseStep(s3, ResetDelay - gap);
            var s5 := TimerStep(s4);
            && s3.copied && !s5.copied
            && s5.now - s3.now == ResetDelay - gap < ResetDelay
            && s5.resets == [s3.now + ResetDelay]
  {
  }

  // ---------------------------------------------------------------------
  // The page's state

  class DashboardPage {
    var internData: Option<InternPayload>
    var loading: bool
    var error: Option<string>
    var copied: bool
    /** The JavaScript runtime's clock and its queue of pending reset
        deadlines. */
    var now: int
    var pendingResets: seq<int>

    function State(): DashboardState
      reads this
    {
      DashboardState(FetchState(loading, error, internData), copied, now, pendingResets)
    }

    predicate Valid()
      reads this
    {
      Wf(State())
    }

    constructor ()
      ensures Valid() && State() == InitialDashboard()
    {
      internData := None;
      loading := true;
      error := None;
      copied := false;
      now := 0;
      pendingResets := [];
    }

    method StartFetch()
      requires Valid()
      modifies this
      ensures Valid() && State() == old(State()).(fetch := BeginFetch(old(State()).fetch))
    {
      loading := true;
    }

    method ReceiveData(payload: Option<InternPayload>)
      requires Valid()
      modifies this
      ensures Valid() && State() == old(State()).(fetch := StoreData(old(State()).fetch, payload))
    {
      internData := payload;
    }

    method ReceiveFailure()
      requires Valid()
      modifies this
      ensures Valid() && State() == old(State()).(fetch := RecordFailure(old(State()).fetch, FetchError))
    {
      error := Some(FetchError);
    }

    method FinishFetch()
      requires Valid()
      modifies this
      ensures Valid() && State() == old(State()).(fetch := Settle(old(State()).fetch))
    {
      loading := false;
    }

    /** `fetchInternData` with the request's outcome given. */
    method FetchInternData(outcome: Outcome<Option<InternPayload>>)
      requires Valid()
      modifies this
      ensures Valid() && State() == FetchStep(old(State()), outcome)
      ensures !loading && copied == old(copied)
    {
      StartFetch();
      match outcome {
        case Loaded(payload) => ReceiveData(payload);
        case Failed => ReceiveFailure();
      }
      FinishFetch();
    }

    /** `copyReferralCode` with the clipboard write's result given. */
    method CopyReferralCode(clipboardOk: bool)
      requires Valid()
      modifies this
      ensures Valid() && State() == CopyStep(old(State()), clipboardOk)
    {
      if internData.Some? && Truthy(internData.value.referralCode) {
        if clipboardOk {
          copied := true;
          pendingResets := pendingResets + [now + ResetDelay];
        }
      }
    }

    method Elapse(ms: nat)
      requires Valid()
      requires pendingResets == [] || now + ms <= pendingResets[0]
      modifies this
      ensures Valid() && State() == ElapseStep(old(State()), ms)
    {
      now := now + ms;
    }

    /** The callback `() => setCopied(false)` of the oldest pending timer. */
    method ResetTimerFires()
      requires Valid() && pendingResets != []
      modifies this
      ensures Valid() && State() == TimerStep(old(State()))
    {
      TimerStepPreservesWf(State());
      now := pendingResets[0];
      copied := false;
      pendingResets := pendingResets[1..];
    }
  }

  /** Load the profile, copy, copy again 1500 ms later: 500 ms after the
      second copy the first timer takes the acknowledgement away. */
  method DoubleCopyScenario(payload: InternPayload)
    requires Truthy(payload.referralCode)
  {
    var page := new DashboardPage();
    page.FetchInternData(Loaded(Some(payload)));
    assert ScreenOf(page.State().fetch) == Ready(Some(payload));
    page.CopyReferralCode(true);
    assert CopyLabel(page.copied) == "Copied!";
    page.Elapse(1500);
    page.CopyReferralCode(true);
    page.Elapse(500);
    page.ResetTimerFires();
    assert page.now == 2000 && !page.copied && page.pendingResets == [3500];
  }
}
