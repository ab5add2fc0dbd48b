/**
  The login gate of the dashboard (dashboard/src/components/LoginOverlay.jsx):
  submitting the form connects to the broker with the typed credentials; on
  every connect event both power rails are switched on with a retained QoS 1
  publish, and only when both publishes are acknowledged without error is the
  client closed and the dashboard opened. A broker error rejects the login.
  The broker, its callbacks and the 200 ms delay before success are events
  given to the methods; each state update is applied at once.
*/
module LoginOverlay {
  datatype Status = Idle | Connecting | Error

  const PI_POWER_TOPIC := "rover/power/pi"
  const AUX_POWER_TOPIC := "rover/power/aux"
  const ACCESS_DENIED := "ACCESS_DENIED: CREDENTIALS_REJECTED"

  /** A publish handed to the client. */
  datatype Publish = Publish(topic: string, payload: string, qos: int, retain: bool)

  /** The two publishes made on a connect event, in order. */
  function PowerOnPublishes(): (ps: seq<Publish>)
    ensures |ps| == 2 && ps[0].topic == PI_POWER_TOPIC && ps[1].topic == AUX_POWER_TOPIC
    ensures forall k :: 0 <= k < |ps| ==> ps[k].payload == "On" && ps[k].qos == 1 && ps[k].retain
  {
    [Publish(PI_POWER_TOPIC, "On", 1, true), Publish(AUX_POWER_TOPIC, "On", 1, true)]
  }

  /**
    The closure state of one connect event: the `completed` counter and which
    of its two publish callbacks have not run yet.
  */
  datatype Session = Session(completed: nat, piPending: bool, auxPending: bool, failures: nat)

  function Pending(s: Session): nat {
    (if s.piPending then 1 else 0) + (if s.auxPending then 1 else 0)
  }

  /** Each of the two callbacks is pending, acknowledged, or reported an error. */
  predicate Accounted(s: Session) {
    s.completed + Pending(s) + s.failures == 2
  }

  /** What the component did, in order. */
  datatype Effect =
    | Published(session: nat, message: Publish)
    | ClientEnded
    | LoginSucceeded(session: nat)

  /** How many times `onLoginSuccess` ran for connect event `i`. */
  function SuccessCount(effects: seq<Effect>, i: nat): nat
    decreases |effects|
  {
    if |effects| == 0 then 0
    else SuccessCount(effects[..|effects| - 1], i) + (if effects[|effects| - 1] == LoginSucceeded(i) then 1 else 0)
  }

  lemma {:induction false} SuccessCountAppend(effects: seq<Effect>, more: seq<Effect>, i: nat)
    ensures SuccessCount(effects + more, i) == SuccessCount(effects, i) + SuccessCount(more, i)
    decreases |more|
  {
    if |more| == 0 {
      assert effects + more == effects;
    } else {
      var init := more[..|more| - 1];
      assert (effects + more)[..|effects + more| - 1] == effects + init;
      SuccessCountAppend(effects, init, i);
    }
  }

  /** `disabled={status === "CONNECTING"}` on both inputs and the button. */
  predicate InputsDisabled(status: Status) {
    status == Connecting
  }

  class Overlay {
    var status: Status
    var errorMsg: string
    /** One entry per connect event, oldest first. */
    var sessions: seq<Session>
    var effects: seq<Effect>

    /**
      Every connect event accounts for its two callbacks, and `onLoginSuccess`
      has run for it once if both were acknowledged and never otherwise.
    */
    ghost predicate Valid()
      reads this
    {
      (forall i :: 0 <= i < |sessions| ==> Accounted(sessions[i]))
      && (forall i :: 0 <= i < |sessions| ==>
            SuccessCount(effects, i) == if sessions[i].completed == 2 then 1 else 0)
      && (forall i :: |sessions| <= i ==> SuccessCount(effects, i) == 0)
    }

    constructor ()
      ensures Valid() && status == Idle && errorMsg == ""
      ensures sessions == [] && effects == []
    {
      status, errorMsg := Idle, "";
      sessions, effects := [], [];
    }

    /** `verifyAndConnect`: the form locks while the broker is contacted. */
    method Submit()
      requires Valid()
      modifies this`status
      ensures Valid() && status == Connecting && InputsDisabled(status)
    {
      status := Connecting;
    }

    /** A connect event: a fresh counter, and the two power-on publishes. */
    method OnConnect()
      requires Valid()
      modifies this`sessions, this`effects
      ensures Valid()
      ensures sessions == old(sessions) + [Session(0, true, true, 0)]
      ensures effects == old(effects)
        + [Published(|old(sessions)|, PowerOnPublishes()[0]), Published(|old(sessions)|, PowerOnPublishes()[1])]
    {
      var n := |sessions|;
      var more := [Published(n, PowerOnPublishes()[0]), Published(n, PowerOnPublishes()[1])];
      forall i | 0 <= i
        ensures SuccessCount(effects + more, i) == SuccessCount(effects, i)
      {
        SuccessCountAppend(effects, more, i);
        assert more[..1][..0] == [];
        assert SuccessCount(more[..1], i) == 0;
      }
      sessions := sessions + [Session(0, true, true, 0)];
      effects := effects + more;
    }

    /**
      A publish callback of connect event `i` (`pi` says which publish): an
      error changes nothing; an acknowledgement counts, and the second one
      closes the client and then opens the dashboard.
    */
    method OnPublishResult(i: nat, pi: bool, err: bool)
      requires Valid()
      requires i < |sessions|
      requires if pi then sessions[i].piPending else sessions[i].auxPending
      modifies this`sessions, this`effects
      ensures Valid()
      ensures |sessions| == |old(sessions)|
      ensures forall j :: 0 <= j < |sessions| && j != i ==> sessions[j] == old(sessions[j])
      ensures sessions[i].completed == old(sessions[i].completed) + (if err then 0 else 1)
      ensures effects == old(effects) + (if sessions[i].completed == 2 then [ClientEnded, LoginSucceeded(i)] else [])
    {
      var s := sessions[i];
      s := if pi then s.(piPending := false) else s.(auxPending := false);
      if err {
        s := s.(failures := s.failures + 1);
      } else {
        s := s.(completed := s.completed + 1);
      }
      var more: seq<Effect> := if s.completed == 2 then [ClientEnded, LoginSucceeded(i)] else [];
      forall j | 0 <= j
        ensures SuccessCount(effects + more, j)
             == SuccessCount(effects, j) + (if j == i && s.completed == 2 then 1 else 0)
      {
        SuccessCountAppend(effects, more, j);
        if s.completed == 2 {
          assert more[..1][..0] == [];
          assert SuccessCount(more[..1], j) == 0;
          assert SuccessCount(more, j) == if j == i then 1 else 0;
        }
      }
      assert old(sessions[i]).completed < 2;
      sessions := sessions[i := s];
      effects := effects + more;
    }

    /** A broker error: the login is rejected with a fixed message and the client is closed. */
    method OnError()
      requires Valid()
      modifies this`status, this`errorMsg, this`effects
      ensures Valid()
      ensures status == Error && errorMsg == ACCESS_DENIED && !InputsDisabled(status)
      ensures effects == old(effects) + [ClientEnded]
    {
      forall i | 0 <= i
        ensures SuccessCount(effects + [ClientEnded], i) == SuccessCount(effects, i)
      {
        assert (effects + [ClientEnded])[..|effects|] == effects;
      }
      status := Error;
      errorMsg := ACCESS_DENIED;
      effects := effects + [ClientEnded];
    }
  }
}
