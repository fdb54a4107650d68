/** The single "prevent idle sleep" power assertion, taken and released idempotently. */
module PowerAssertions {
  import opened Actions

  /** A call into the power-management API. */
  datatype OsCall = CreateAssertion(reason: string) | ReleaseAssertion(id: nat)

  /** What `IOPMAssertionCreateWithName` does when asked: grant with an ID, or refuse. */
  datatype AssertionOutcome = Granted(id: nat) | Refused

  /** The service's fields and the power-management calls made so far. */
  datatype PowerView = PowerView(isAsserted: bool, assertionID: nat, osCalls: seq<OsCall>)

  /** `preventSleep`: nothing if already asserted; otherwise one create call, asserted iff it succeeded. */
  function PreventSleepNext(v: PowerView, reason: string, os: AssertionOutcome): (w: PowerView)
    ensures v.isAsserted ==> w == v
    ensures !v.isAsserted ==> w.osCalls == v.osCalls + [CreateAssertion(reason)] && w.isAsserted == os.Granted?
  {
    if v.isAsserted then v
    else PowerView(os.Granted?, if os.Granted? then os.id else v.assertionID, v.osCalls + [CreateAssertion(reason)])
  }

  /** `allowSleep`: nothing if not asserted; otherwise release the held ID once and reset. */
  function AllowSleepNext(v: PowerView): (w: PowerView)
    ensures !v.isAsserted ==> w == v
    ensures v.isAsserted ==> w == PowerView(false, 0, v.osCalls + [ReleaseAssertion(v.assertionID)])
  {
    if !v.isAsserted then v
    else PowerView(false, 0, v.osCalls + [ReleaseAssertion(v.assertionID)])
  }

  /** Asking twice is asking once: a second `preventSleep` never creates a second assertion. */
  lemma PreventSleepIdempotent(v: PowerView, reason: string, os: AssertionOutcome, reason2: string, os2: AssertionOutcome)
    requires os.Granted?
    ensures PreventSleepNext(PreventSleepNext(v, reason, os), reason2, os2) == PreventSleepNext(v, reason, os)
  {
  }

  lemma AllowSleepIdempotent(v: PowerView)
    ensures AllowSleepNext(AllowSleepNext(v)) == AllowSleepNext(v)
    ensures !AllowSleepNext(v).isAsserted
  {
  }

  /** A granted assertion is released with exactly the ID it was granted. */
  lemma PreventThenAllowReleasesGrantedID(v: PowerView, reason: string, id: nat)
    requires !v.isAsserted
    ensures AllowSleepNext(PreventSleepNext(v, reason, Granted(id))).osCalls
         == v.osCalls + [CreateAssertion(reason), ReleaseAssertion(id)]
  {
  }

  /** The power-management effect of the sleep requests in an action log, in order. */
  function SleepEffect(v: PowerView, acts: seq<Action>, os: AssertionOutcome): PowerView
    decreases |acts|
  {
    if acts == [] then v
    else
      var next := match acts[0]
        case AllowSleep => AllowSleepNext(v)
        case PreventSleep(reason) => PreventSleepNext(v, reason, os)
        case _ => v;
      SleepEffect(next, acts[1..], os)
  }

  lemma {:induction false} SleepEffectAppend(v: PowerView, a: seq<Action>, b: seq<Action>, os: AssertionOutcome)
    ensures SleepEffect(v, a + b, os) == SleepEffect(SleepEffect(v, a, os), b, os)
    decreases |a|
  {
    if a == [] {
      assert a + b == b;
    } else {
      assert (a + b)[0] == a[0];
      assert (a + b)[1..] == a[1..] + b;
      var next := match a[0]
        case AllowSleep => AllowSleepNext(v)
        case PreventSleep(reason) => PreventSleepNext(v, reason, os)
        case _ => v;
      SleepEffectAppend(next, a[1..], b, os);
    }
  }

  /** A log without sleep requests leaves the assertion alone. */
  lemma {:induction false} SleepEffectNoSleepActions(v: PowerView, acts: seq<Action>, os: AssertionOutcome)
    requires forall i :: 0 <= i < |acts| ==> IsRegisterAction(acts[i])
    ensures SleepEffect(v, acts, os) == v
    decreases |acts|
  {
    if acts != [] {
      SleepEffectNoSleepActions(v, acts[1..], os);
    }
  }

  class PowerAssertionService {
    var assertionID: nat
    var isAsserted: bool
    /** The power-management calls made so far. */
    var osCalls: seq<OsCall>

    constructor ()
      ensures View() == PowerView(false, 0, [])
    {
      assertionID := 0;
      isAsserted := false;
      osCalls := [];
    }

    function View(): PowerView
      reads this
    {
      PowerView(isAsserted, assertionID, osCalls)
    }

    method PreventSleep(reason: string, os: AssertionOutcome)
      modifies this
      ensures View() == PreventSleepNext(old(View()), reason, os)
    {
      if isAsserted {
        return;
      }
      osCalls := osCalls + [CreateAssertion(reason)];
      if os.Granted? {
        assertionID := os.id;
      }
      isAsserted := os.Granted?;
    }

    method AllowSleep()
      modifies this
      ensures View() == AllowSleepNext(old(View()))
    {
      if !isAsserted {
        return;
      }
      osCalls := osCalls + [ReleaseAssertion(assertionID)];
      isAsserted := false;
      assertionID := 0;
    }

    /** Teardown (`deinit`): any held assertion is released. */
    method Deinit()
      modifies this
      ensures View() == AllowSleepNext(old(View()))
      ensures !isAsserted
      ensures old(isAsserted) ==> osCalls == old(osCalls) + [ReleaseAssertion(old(assertionID))]
    {
      AllowSleep();
    }
  }
}
