/** `handleResetPassword` of app/auth/forgot-password.tsx as a state
    machine over the screen's `loading` flag and error message. The reset
    call is an oracle that succeeds or fails. */
module ForgotPassword {

  datatype Screen = Screen(loading: bool, error: string)

  const EmailRequired: string := "Email requis"
  const SendFailed: string := "Erreur lors de l'envoi de l'email"

  datatype Outcome = Succeeded | Failed

  datatype Effect =
    | SetLoading(loading: bool)
    | SetError(error: string)
    | CallReset(email: string)
    /** The "Email envoyé" alert, whose button goes back. */
    | ShowSentAlert

  /** One press of the button. */
  function HandleResetPassword(email: string, outcome: Outcome): (r: seq<Effect>)
    ensures email == "" ==> r == [SetError(EmailRequired)]
    ensures email != "" ==> |r| >= 4 && r[..3] == [SetLoading(true), SetError(""), CallReset(email)]
    ensures email != "" ==> r[|r| - 1] == SetLoading(false)
    ensures (exists i :: 0 <= i < |r| && r[i].CallReset?) <==> email != ""
    ensures (exists i :: 0 <= i < |r| && r[i] == ShowSentAlert) <==> email != "" && outcome == Succeeded
  {
    if email == "" then [SetError(EmailRequired)]
    else
      var settled := if outcome == Succeeded then ShowSentAlert else SetError(SendFailed);
      var r := [SetLoading(true), SetError(""), CallReset(email), settled, SetLoading(false)];
      assert r[2].CallReset?;
      assert r[3] == settled;
      r
  }

  function Step(s: Screen, e: Effect): Screen {
    match e
    case SetLoading(b) => s.(loading := b)
    case SetError(m) => s.(error := m)
    case _ => s
  }

  /** The screen after a sequence of effects. */
  function Run(s: Screen, effects: seq<Effect>): Screen
    decreases |effects|
  {
    if |effects| == 0 then s else Run(Step(s, effects[0]), effects[1..])
  }

  /** While the reset call is pending the screen is loading, with no error. */
  lemma LoadingDuringCall(s: Screen, email: string, outcome: Outcome)
    requires email != ""
    ensures Run(s, HandleResetPassword(email, outcome)[..3]) == Screen(true, "")
  {
    var effects := HandleResetPassword(email, outcome)[..3];
    var s1 := Step(s, SetLoading(true));
    assert effects[1..] == [SetError(""), CallReset(email)];
    assert effects[1..][1..] == [CallReset(email)];
    assert Run(s, effects) == Run(s1, effects[1..]);
    assert Run(s1, effects[1..]) == Run(Step(s1, SetError("")), [CallReset(email)]);
    assert [CallReset(email)][1..] == [];
  }

  /** After a press: an empty address only shows the message and leaves
      `loading` as it was; otherwise `loading` ends false, and the error
      is the failure message exactly when the call failed. */
  lemma ScreenAfterPress(s: Screen, email: string, outcome: Outcome)
    ensures email == "" ==> Run(s, HandleResetPassword(email, outcome)) == Screen(s.loading, EmailRequired)
    ensures email != "" && outcome == Failed ==> Run(s, HandleResetPassword(email, outcome)) == Screen(false, SendFailed)
    ensures email != "" && outcome == Succeeded ==> Run(s, HandleResetPassword(email, outcome)) == Screen(false, "")
  {
    var r := HandleResetPassword(email, outcome);
    if email == "" {
      assert r[1..] == [];
    } else {
      var settled := r[3];
      var s1 := Step(s, SetLoading(true));
      var s2 := Step(s1, SetError(""));
      var s4 := Step(s2, settled);
      assert r[1..] == [SetError(""), CallReset(email), settled, SetLoading(false)];
      assert r[2..] == [CallReset(email), settled, SetLoading(false)];
      assert r[3..] == [settled, SetLoading(false)];
      assert r[4..] == [SetLoading(false)];
      calc {
        Run(s, r);
        Run(s1, r[1..]);
        { assert r[1..][1..] == r[2..]; }
        Run(s2, r[2..]);
        { assert r[2..][1..] == r[3..]; }
        Run(s2, r[3..]);
        { assert r[3..][1..] == r[4..]; }
        Run(s4, r[4..]);
        { assert r[4..][1..] == []; }
        Step(s4, SetLoading(false));
      }
    }
  }
}
