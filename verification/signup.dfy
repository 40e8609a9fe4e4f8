/** `handleSignUp` of app/auth/signup.tsx: the field validation, with its
    later checks overwriting earlier messages, and the effects of one press
    of the button. The account-creation call is an oracle that succeeds or
    fails. */
module SignUp {

  datatype Form = Form(email: string, password: string, confirmPassword: string, displayName: string, city: string)

  type Errors = map<string, string>

  const NameRequired: string := "Nom requis"
  const EmailRequired: string := "Email requis"
  const PasswordRequired: string := "Mot de passe requis"
  const ConfirmRequired: string := "Confirmation requise"
  const CityRequired: string := "Ville requise"
  const Mismatch: string := "Les mots de passe ne correspondent pas"
  const TooShort: string := "Le mot de passe doit contenir au moins 6 caractères"
  const CreationFailed: string := "Erreur lors de la création du compte"
  const MinPasswordLength: nat := 6

  /** `if (cond) newErrors[key] = message`. */
  function SetIf(e: Errors, cond: bool, key: string, message: string): Errors {
    if cond then e[key := message] else e
  }

  /** The validation block, in source order. */
  function Validate(f: Form): (r: Errors)
    ensures "displayName" in r <==> f.displayName == ""
    ensures "email" in r <==> f.email == ""
    ensures "city" in r <==> f.city == ""
    ensures "password" in r <==> |f.password| < MinPasswordLength
    ensures "confirmPassword" in r <==> f.confirmPassword == "" || f.password != f.confirmPassword
    ensures "displayName" in r ==> r["displayName"] == NameRequired
    ensures "email" in r ==> r["email"] == EmailRequired
    ensures "city" in r ==> r["city"] == CityRequired
    ensures "password" in r ==> r["password"] == TooShort
    ensures "confirmPassword" in r ==>
      r["confirmPassword"] == (if f.password != f.confirmPassword then Mismatch else ConfirmRequired)
    ensures r.Keys <= {"displayName", "email", "password", "confirmPassword", "city"}
  {
    var e := SetIf(map[], f.displayName == "", "displayName", NameRequired);
    var e := SetIf(e, f.email == "", "email", EmailRequired);
    var e := SetIf(e, f.password == "", "password", PasswordRequired);
    var e := SetIf(e, f.confirmPassword == "", "confirmPassword", ConfirmRequired);
    var e := SetIf(e, f.city == "", "city", CityRequired);
    var e := SetIf(e, f.password != f.confirmPassword, "confirmPassword", Mismatch);
    SetIf(e, |f.password| < MinPasswordLength, "password", TooShort)
  }

  /** The form passes exactly when every field is filled, the passwords
      agree and the password has at least six characters. */
  predicate Acceptable(f: Form) {
    f.email != "" && f.password != "" && f.confirmPassword != "" && f.displayName != "" && f.city != ""
    && f.password == f.confirmPassword && |f.password| >= MinPasswordLength
  }

  lemma ValidateAcceptsExactly(f: Form)
    ensures |Validate(f)| == 0 <==> Acceptable(f)
  {
    var r := Validate(f);
    if !Acceptable(f) {
      if f.displayName == "" { assert "displayName" in r; }
      else if f.email == "" { assert "email" in r; }
      else if f.city == "" { assert "city" in r; }
      else if |f.password| < MinPasswordLength { assert "password" in r; }
      else { assert "confirmPassword" in r; }
    }
  }

  /** The earlier "required" messages for password and confirmation never
      survive: the later checks always replace them. */
  lemma RequiredMessagesOverwritten(f: Form)
    ensures f.password == "" ==> Validate(f)["password"] == TooShort
    ensures f.confirmPassword == "" && f.password != "" ==> Validate(f)["confirmPassword"] == Mismatch
    ensures "password" in Validate(f) ==> Validate(f)["password"] != PasswordRequired
  {
  }

  datatype Outcome = Succeeded | Failed

  datatype Effect =
    | SetErrors(errors: Errors)
    | CallSignUp(email: string, password: string, displayName: string, city: string)
    | Navigate(route: string)

  const TabsRoute: string := "/(tabs)"

  /** One press of the button; `signUp` answers with `outcome` when it is
      called at all. */
  function HandleSignUp(f: Form, outcome: Outcome): (r: seq<Effect>)
    ensures |r| >= 2 && r[0] == SetErrors(map[])
    ensures (exists i :: 0 <= i < |r| && r[i].CallSignUp?) <==> Acceptable(f)
    ensures !Acceptable(f) ==> r == [SetErrors(map[]), SetErrors(Validate(f))]
    ensures Acceptable(f) ==> r[1] == CallSignUp(f.email, f.password, f.displayName, f.city)
    ensures Acceptable(f) ==> |r| == 3
    ensures Acceptable(f) ==>
      r[2] == (if outcome == Succeeded then Navigate(TabsRoute) else SetErrors(map["general" := CreationFailed]))
  {
    var errors := Validate(f);
    ValidateAcceptsExactly(f);
    if |errors| > 0 then [SetErrors(map[]), SetErrors(errors)]
    else
      var r := [SetErrors(map[]), CallSignUp(f.email, f.password, f.displayName, f.city)]
        + (if outcome == Succeeded then [Navigate(TabsRoute)] else [SetErrors(map["general" := CreationFailed])]);
      assert r[1].CallSignUp?;
      r
  }

  /** The errors on screen after a sequence of effects. */
  function ShownErrors(shown: Errors, effects: seq<Effect>): Errors
    decreases |effects|
  {
    if |effects| == 0 then shown
    else ShownErrors(if effects[0].SetErrors? then effects[0].errors else shown, effects[1..])
  }

  /** Whatever was on screen before, a press leaves the validation errors,
      exactly the creation error, or no error with a move to the tabs. */
  lemma ShownAfterPress(f: Form, outcome: Outcome, before: Errors)
    ensures !Acceptable(f) ==> ShownErrors(before, HandleSignUp(f, outcome)) == Validate(f)
    ensures Acceptable(f) && outcome == Failed ==>
      ShownErrors(before, HandleSignUp(f, outcome)) == map["general" := CreationFailed]
    ensures Acceptable(f) && outcome == Succeeded ==>
      ShownErrors(before, HandleSignUp(f, outcome)) == map[]
  {
    var r := HandleSignUp(f, outcome);
    var afterFirst := ShownErrors(map[], r[1..]);
    assert ShownErrors(before, r) == afterFirst;
    if Acceptable(f) {
      assert r[1..][1..] == r[2..] == [r[2]];
      assert afterFirst == ShownErrors(map[], [r[2]]);
      assert [r[2]][1..] == [];
      if outcome == Failed {
        assert ShownErrors(map[], [r[2]]) == ShownErrors(r[2].errors, []);
      } else {
        assert ShownErrors(map[], [r[2]]) == ShownErrors(map[], []);
      }
    } else {
      assert r[1..][1..] == [];
      assert afterFirst == ShownErrors(Validate(f), []);
    }
  }
}
