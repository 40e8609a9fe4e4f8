/** `handleSignIn` of app/auth/signin.tsx: the two required-field checks
    and the effects of one press of the button. The sign-in call is an
    oracle that succeeds or fails. */
module SignIn {

  datatype Errors = Errors(email: string, password: string, general: string)

  /** An absent message is the empty string: the screen shows nothing for it. */
  const NoErrors: Errors := Errors("", "", "")

  const EmailRequired: string := "Email requis"
  const PasswordRequired: string := "Mot de passe requis"
  const BadCredentials: string := "Email ou mot de passe incorrect"
  const TabsRoute: string := "/(tabs)"

  function Validate(email: string, password: string): (r: Errors)
    ensures r.email != "" <==> email == ""
    ensures r.password != "" <==> password == ""
    ensures r.email != "" ==> r.email == EmailRequired
    ensures r.password != "" ==> r.password == PasswordRequired
    ensures r.general == ""
  {
    Errors(if email == "" then EmailRequired else "", if password == "" then PasswordRequired else "", "")
  }

  datatype Outcome = Succeeded | Failed

  datatype Effect =
    | SetErrors(errors: Errors)
    | CallSignIn(email: string, password: string)
    | Navigate(route: string)

  /** One press of the button; `signIn` answers with `outcome` when it is
      called at all. */
  function HandleSignIn(email: string, password: string, outcome: Outcome): (r: seq<Effect>)
    ensures |r| >= 2 && r[0] == SetErrors(NoErrors)
    ensures (exists i :: 0 <= i < |r| && r[i].CallSignIn?) <==> email != "" && password != ""
    ensures email == "" || password == "" ==> r == [SetErrors(NoErrors), SetErrors(Validate(email, password))]
    ensures email != "" && password != "" ==> |r| == 3 && r[1] == CallSignIn(email, password)
    ensures email != "" && password != "" ==>
      r[2] == (if outcome == Succeeded then Navigate(TabsRoute) else SetErrors(Errors("", "", BadCredentials)))
  {
    var errors := Validate(email, password);
    if errors != NoErrors then [SetErrors(NoErrors), SetErrors(errors)]
    else
      var r := [SetErrors(NoErrors), CallSignIn(email, password)]
        + (if outcome == Succeeded then [Navigate(TabsRoute)] else [SetErrors(Errors("", "", BadCredentials))]);
      assert r[1].CallSignIn?;
      r
  }

  function ShownErrors(shown: Errors, effects: seq<Effect>): Errors
    decreases |effects|
  {
    if |effects| == 0 then shown
    else ShownErrors(if effects[0].SetErrors? then effects[0].errors else shown, effects[1..])
  }

  /** Whatever was on screen before, a press leaves the required-field
      messages, only the credentials message, or nothing. */
  lemma ShownAfterPress(email: string, password: string, outcome: Outcome, before: Errors)
    ensures email == "" || password == "" ==>
      ShownErrors(before, HandleSignIn(email, password, outcome)) == Validate(email, password)
    ensures email != "" && password != "" && outcome == Failed ==>
      ShownErrors(before, HandleSignIn(email, password, outcome)) == Errors("", "", BadCredentials)
    ensures email != "" && password != "" && outcome == Succeeded ==>
      ShownErrors(before, HandleSignIn(email, password, outcome)) == NoErrors
  {
    var r := HandleSignIn(email, password, outcome);
    var afterFirst := ShownErrors(NoErrors, r[1..]);
    assert ShownErrors(before, r) == afterFirst;
    if email != "" && password != "" {
      assert r[1..][1..] == r[2..] == [r[2]];
      assert afterFirst == ShownErrors(NoErrors, [r[2]]);
      assert [r[2]][1..] == [];
      if outcome == Failed {
        assert ShownErrors(NoErrors, [r[2]]) == ShownErrors(r[2].errors, []);
      } else {
        assert ShownErrors(NoErrors, [r[2]]) == ShownErrors(NoErrors, []);
      }
    } else {
      assert r[1..][1..] == [];
      assert afterFirst == ShownErrors(Validate(email, password), []);
    }
  }
}
