/** app/onboarding.tsx as a state machine over the slide index. Storage
    writes and navigation are recorded as effects instead of performed. */
module Onboarding {
  import opened Wrappers

  datatype SlideIcon = Zap | Bell | Users

  datatype Slide = Slide(title: string, subtitle: string, icon: SlideIcon, color: string)

  const Slides: seq<Slide> := [
    Slide("Signalez les coupures en un clic",
      "Électricité, eau ou internet : informez votre communauté instantanément", Zap, "#f97316"),
    Slide("Soyez alerté quand ça revient",
      "Recevez des notifications push dès que les services sont rétablis", Bell, "#f97316"),
    Slide("Ensemble, soyons informés en temps réel",
      "Rejoignez la communauté et restez connecté à votre quartier", Users, "#f97316")
  ]

  const OnboardingKey: string := "hasSeenOnboarding"
  const SeenValue: string := "true"
  const AuthRoute: string := "/auth"
  const OnboardingRoute: string := "/onboarding"

  datatype Effect = StoreItem(key: string, value: string) | Navigate(route: string)

  /** What leaving the onboarding does: remember it, then go to sign-in. */
  const Finish: seq<Effect> := [StoreItem(OnboardingKey, SeenValue), Navigate(AuthRoute)]

  datatype Step = Step(index: int, effects: seq<Effect>)

  predicate OnLastSlide(index: int) {
    index == |Slides| - 1
  }

  /** `handleNext`: advance while a slide remains, otherwise finish in place. */
  function HandleNext(index: int): (r: Step)
    ensures index < |Slides| - 1 ==> r.index == index + 1 && r.effects == []
    ensures index >= |Slides| - 1 ==> r.index == index && r.effects == Finish
  {
    if index < |Slides| - 1 then Step(index + 1, [])
    else Step(index, Finish)
  }

  /** `handleSkip`: finish from any slide. */
  function HandleSkip(index: int): (r: Step)
    ensures r.index == index && r.effects == Finish
  {
    Step(index, Finish)
  }

  /** The mount check: only a stored "true" skips the onboarding. */
  function Mount(stored: Option<string>): (r: Effect)
    ensures r == Navigate(AuthRoute) <==> stored == Some(SeenValue)
    ensures r == Navigate(OnboardingRoute) <==> stored != Some(SeenValue)
  {
    if stored == Some(SeenValue) then Navigate(AuthRoute) else Navigate(OnboardingRoute)
  }

  /** The main button's caption. */
  function ButtonTitle(index: int): (r: string)
    ensures r == "Commencer" <==> OnLastSlide(index)
    ensures r == "Suivant" <==> !OnLastSlide(index)
  {
    if index == |Slides| - 1 then "Commencer" else "Suivant"
  }

  datatype Press = Next | Skip

  /** A run of button presses from a given index; effects accumulate in order. */
  function Run(index: int, presses: seq<Press>): (r: Step)
    decreases |presses|
  {
    if |presses| == 0 then Step(index, [])
    else
      var s := if presses[0] == Next then HandleNext(index) else HandleSkip(index);
      var rest := Run(s.index, presses[1..]);
      Step(rest.index, s.effects + rest.effects)
  }

  /** From the initial slide, no run of presses leaves the slide table, so
      `onboardingData[currentIndex]` is always defined. */
  lemma {:induction false} RunStaysOnSlides(index: int, presses: seq<Press>)
    requires 0 <= index < |Slides|
    ensures 0 <= Run(index, presses).index < |Slides|
    decreases |presses|
  {
    if |presses| > 0 {
      var s := if presses[0] == Next then HandleNext(index) else HandleSkip(index);
      RunStaysOnSlides(s.index, presses[1..]);
    }
  }

  /** The store after a run of effects. */
  function Apply(store: map<string, string>, effects: seq<Effect>): (r: map<string, string>)
    ensures forall k :: k in store ==> k in r
    decreases |effects|
  {
    if |effects| == 0 then store
    else
      var s := if effects[0].StoreItem? then store[effects[0].key := effects[0].value] else store;
      Apply(s, effects[1..])
  }

  function Lookup(store: map<string, string>, key: string): Option<string> {
    if key in store then Some(store[key]) else None
  }

  /** Once the user has finished or skipped, the next launch goes straight
      to sign-in. */
  lemma FinishedIsRemembered(store: map<string, string>)
    ensures Mount(Lookup(Apply(store, Finish), OnboardingKey)) == Navigate(AuthRoute)
  {
    var s1 := store[OnboardingKey := SeenValue];
    assert Apply(store, Finish) == Apply(s1, Finish[1..]);
    assert Apply(s1, Finish[1..]) == Apply(s1, []);
  }

  /** Three presses of the main button walk the slides and then finish:
      the caption changes on the last slide only. */
  lemma WalkThrough()
    ensures Run(0, [Next, Next]) == Step(2, [])
    ensures ButtonTitle(0) == "Suivant" && ButtonTitle(1) == "Suivant" && ButtonTitle(2) == "Commencer"
    ensures Run(0, [Next, Next, Next]) == Step(2, Finish)
  {
    assert [Next, Next][1..] == [Next];
    assert [Next, Next, Next][1..] == [Next, Next];
    assert [Next][1..] == [];
  }
}
