# Onboarding questionnaires and loading overlay of CocktailCrafters

A Dafny model of the form state behind the three onboarding questionnaires of
the CocktailCrafters web prototype (personalized preferences, knowledge
topics, food pairings) and of the two counters that animate its loading
overlay.

- `selection.dfy` (module `Selection`): a multi-select answer. The program
  keeps it in a JavaScript `Set<string>`, which iterates in insertion order.
  Here it is a sequence with no label twice. `Add`, `Delete` and `Toggle` are
  the set operations of the toggle handlers. `Join` is
  `Array.from(set).join(', ')`. `Split` is not in the program. It is the
  reference inverse of `Join`, used to state what a submitted value tells
  its reader.
- `questionnaires.dfy` (module `Questionnaires`): one class per form. Its
  fields are the form's state cells. Its methods are the toggle handlers and
  the single-choice setters. `IsValid` and `Submit` are functions of the
  fields. `PressSubmit` is a press of the submit button, which is disabled
  unless the form is valid. The profile reminder of the personalized form is
  the function `ProfileReminder`.
- `loading_animations.dfy` (module `LoadingAnimations`): the three-dot
  indicator and the loading screen. Their state cells are fields and a
  `Tick` method is one firing of an interval callback. The callbacks'
  bodies and the caption switch are functions.
- `optional.dfy` (module `Optional`): `Option`, for props that may be absent.

Each class has a `Valid()` invariant that its methods keep. For a form it is
"every selection is duplicate-free". For the loading classes it ties the
state to the number of interval firings so far. Every toggle method states
its new state as `Toggle` of the old one. The lemmas in `Selection` then say
what toggling does to order and membership.

## Model

| member | source | states |
|---|---|---|
| `Selection.Add` | app/components/Questionnaires.tsx:30 | after `add`, the members are the old ones plus the label, and a duplicate-free selection stays duplicate-free |
| `Selection.Delete` | app/components/Questionnaires.tsx:28 | after `delete`, the members are the old ones minus the label, and a duplicate-free selection stays duplicate-free |
| `Selection.Toggle` | app/components/Questionnaires.tsx:25-33 | a toggle flips the toggled label's membership, leaves every other label's membership alone and keeps "no duplicates" |
| `Selection.DeleteAt` | app/components/Questionnaires.tsx:27-28 | deleting the label at index k of a duplicate-free selection leaves exactly the labels before and after it, in order |
| `Selection.ToggleAbsent` | app/components/Questionnaires.tsx:29-31 | toggling an absent label appends it at the end |
| `Selection.TogglePresent` | app/components/Questionnaires.tsx:168-176 | toggling a present label removes it and keeps the other labels in their relative order |
| `Selection.ToggleTwiceAbsent` | app/components/Questionnaires.tsx:327-335 | for an absent label, two toggles give back exactly the original sequence |
| `Selection.ToggleTwicePresent` | app/components/Questionnaires.tsx:337-345 | for a present label, two toggles give back the same members but move the label to the end; the sequence is unchanged iff the label was last |
| `Selection.JoinAppend` | app/components/Questionnaires.tsx:47 | a label toggled on last comes last in the joined value, after a ", " |
| `Selection.JoinEmptyIff` | app/components/Questionnaires.tsx:48 | the joined value is "" exactly for an empty selection or the lone label "" |
| `Selection.SplitJoin` | app/components/Questionnaires.tsx:184 | the joined value of a non-empty selection of comma-free labels splits back into that selection, in insertion order |
| `Selection.Join` | app/components/Questionnaires.tsx:47-48 | a non-empty selection joins to a string as long as all its labels plus one separator between each pair of neighbours, and the string starts with the first label; `JoinAppend`, `JoinEmptyIff` and `SplitJoin` give the rest of its contract |
| `Selection.Take` | app/components/Questionnaires.tsx:68 | `slice(0, n)` gives exactly the first min(n, size) labels |
| `Questionnaires.SpiritOptionsJoinable` | app/components/Questionnaires.tsx:21 | no spirit button label is empty or has a comma |
| `Questionnaires.FlavorOptionsJoinable` | app/components/Questionnaires.tsx:22 | no flavor button label is empty or has a comma |
| `Questionnaires.TopicOptionsJoinable` | app/components/Questionnaires.tsx:158-161 | no topic button label is empty or has a comma |
| `Questionnaires.PreferenceOptionsJoinable` | app/components/Questionnaires.tsx:321-324 | no drink-preference button label is empty or has a comma |
| `Questionnaires.RestrictionOptionsJoinable` | app/components/Questionnaires.tsx:325 | no dietary-restriction button label is empty or has a comma |
| `Questionnaires.ProfileReminder` | app/components/Questionnaires.tsx:64-68 | the reminder shows iff a profile is given and its preferred-spirits set is non-empty; its text starts with "Based on your profile, you enjoy " |
| `Questionnaires.ProfileReminderListsFirstThree` | app/components/Questionnaires.tsx:68 | for spirit names without a comma, the reminder names between one and three spirits, the first ones in insertion order, and all of them when there are fewer than three |
| `Questionnaires.PersonalizedQuestionnaire.constructor` | app/components/Questionnaires.tsx:17-19 | the form starts with no spirit, no flavor and mood "", so every choice is from the buttons |
| `Questionnaires.PersonalizedQuestionnaire.ToggleSpirit` | app/components/Questionnaires.tsx:25-33 | the spirits become `Toggle` of the old spirits; the other fields and "no duplicates" are kept, and so is "only button labels" when a button label is toggled |
| `Questionnaires.PersonalizedQuestionnaire.ToggleFlavor` | app/components/Questionnaires.tsx:35-43 | the flavors become `Toggle` of the old flavors; nothing else changes |
| `Questionnaires.PersonalizedQuestionnaire.SelectMood` | app/components/Questionnaires.tsx:120 | the mood is overwritten with the choice and nothing else changes, so choosing the same mood again changes nothing; choosing a mood button keeps "chosen from the buttons" |
| `Questionnaires.PersonalizedQuestionnaire.IsValid` | app/components/Questionnaires.tsx:54 | no contract of its own: the predicate is the source's conjunction; `PersonalizedValidIffAnswered` gives its contract |
| `Questionnaires.PersonalizedQuestionnaire.Submit` | app/components/Questionnaires.tsx:45-52 | the response has exactly the keys spirits, flavors and mood, and mood is the chosen mood |
| `Questionnaires.PersonalizedQuestionnaire.PressSubmit` | app/components/Questionnaires.tsx:137-139 | the button can only be pressed on a valid form, and then it hands over the submitted response |
| `Questionnaires.PersonalizedValidIffAnswered` | app/components/Questionnaires.tsx:54 | the form is valid iff the spirits, flavors and mood responses are all non-empty, i.e. at least one spirit, at least one flavor and a mood (for non-empty labels) |
| `Questionnaires.PersonalizedSubmitRecoversSelections` | app/components/Questionnaires.tsx:46-50 | on a valid form of button labels, the spirits and flavors responses split back into the selections in toggle order |
| `Questionnaires.SessionSelections` | app/components/Questionnaires.tsx:25-33 | toggling Gin, Rum, Gin, Gin gives the selection Rum, Gin, and it joins to "Rum, Gin" |
| `Questionnaires.PersonalizedSession` | app/components/Questionnaires.tsx:16-52 | a whole session on the personalized form submits spirits "Rum, Gin", flavors "Sour" and mood "Date night" |
| `Questionnaires.KnowledgeQuestionnaire.constructor` | app/components/Questionnaires.tsx:154-156 | the form starts with no topic, level "" and focus "", so every choice is from the buttons |
| `Questionnaires.KnowledgeQuestionnaire.ToggleTopic` | app/components/Questionnaires.tsx:168-176 | the topics become `Toggle` of the old topics; nothing else changes |
| `Questionnaires.KnowledgeQuestionnaire.SelectLevel` | app/components/Questionnaires.tsx:250 | the level is overwritten with the choice and nothing else changes; choosing a level button keeps "chosen from the buttons" |
| `Questionnaires.KnowledgeQuestionnaire.SelectFocus` | app/components/Questionnaires.tsx:273 | the focus is overwritten with the choice and nothing else changes; choosing a focus button keeps "chosen from the buttons" |
| `Questionnaires.KnowledgeQuestionnaire.IsValid` | app/components/Questionnaires.tsx:191 | no contract of its own: the predicate is the source's conjunction; `KnowledgeValidIffAnswered` gives its contract |
| `Questionnaires.KnowledgeQuestionnaire.Submit` | app/components/Questionnaires.tsx:182-189 | the response has exactly the keys topics, level and focus, with the chosen level and focus |
| `Questionnaires.KnowledgeQuestionnaire.PressSubmit` | app/components/Questionnaires.tsx:290-292 | the button can only be pressed on a valid form, and then it hands over the submitted response |
| `Questionnaires.KnowledgeQuestionnaire.PressSurpriseMe` | app/components/Questionnaires.tsx:178-180 | "Surprise Me" hands over exactly the key randomFact with the value "true", whatever the form's state |
| `Questionnaires.KnowledgeValidIffAnswered` | app/components/Questionnaires.tsx:191 | the form is valid iff the topics, level and focus responses are all non-empty, i.e. at least one topic, a level and a focus |
| `Questionnaires.KnowledgeSubmitRecoversTopics` | app/components/Questionnaires.tsx:183-187 | on a valid form of button labels, the topics response splits back into the topics in toggle order |
| `Questionnaires.PairingsQuestionnaire.constructor` | app/components/Questionnaires.tsx:307-311 | the form starts with empty food text, cuisine and occasion and no preference or restriction, so every choice is from the buttons |
| `Questionnaires.PairingsQuestionnaire.TogglePreference` | app/components/Questionnaires.tsx:327-335 | the preferences become `Toggle` of the old preferences; nothing else changes |
| `Questionnaires.PairingsQuestionnaire.ToggleRestriction` | app/components/Questionnaires.tsx:337-345 | the restrictions become `Toggle` of the old restrictions; nothing else changes |
| `Questionnaires.PairingsQuestionnaire.SetFoodText` | app/components/Questionnaires.tsx:374 | the food text becomes the typed text as it is; nothing else changes |
| `Questionnaires.PairingsQuestionnaire.SelectCuisine` | app/components/Questionnaires.tsx:386 | the cuisine is overwritten with the choice and nothing else changes; choosing a cuisine button keeps "chosen from the buttons" |
| `Questionnaires.PairingsQuestionnaire.SelectOccasion` | app/components/Questionnaires.tsx:406 | the occasion is overwritten with the choice and nothing else changes; choosing an occasion button keeps "chosen from the buttons" |
| `Questionnaires.PairingsQuestionnaire.IsValid` | app/components/Questionnaires.tsx:358 | no contract of its own: the predicate is the source's conjunction; `PairingsValidIffAnswered` gives its contract |
| `Questionnaires.PairingsQuestionnaire.Submit` | app/components/Questionnaires.tsx:347-356 | the response has exactly the keys food, cuisine, occasion, preferences and restrictions, with the given food text, cuisine and occasion |
| `Questionnaires.PairingsQuestionnaire.PressSubmit` | app/components/Questionnaires.tsx:460-462 | the button can only be pressed on a valid form, and then it hands over the submitted response |
| `Questionnaires.PairingsValidIffAnswered` | app/components/Questionnaires.tsx:358 | the form is valid iff the food, cuisine and occasion responses are non-empty; preferences and restrictions play no part, and blank food text counts as given |
| `Questionnaires.PairingsSubmitRecoversSelections` | app/components/Questionnaires.tsx:348-354 | an optional response is "" iff its selection is empty, and otherwise splits back into the selection in toggle order |
| `LoadingAnimations.JsRemainder` | app/components/LoadingAnimations.tsx:133 | JavaScript's `%` gives a remainder that differs from the dividend by a multiple of the divisor, in [0, b) for a non-negative dividend and in (-b, 0] for a negative one |
| `LoadingAnimations.NextIndex` | app/components/LoadingAnimations.tsx:133 | from a dot index, the step goes to the next dot and from the last back to the first, staying in {0, 1, 2} |
| `LoadingAnimations.IndexAfterTicksIsMod` | app/components/LoadingAnimations.tsx:129-136 | after n firings from 0 the active index is n mod 3 |
| `LoadingAnimations.ThreeTicksReturn` | app/components/LoadingAnimations.tsx:133 | three steps lead back to the starting dot |
| `LoadingAnimations.ActiveDots` | app/components/LoadingAnimations.tsx:140-145 | there are three dot flags; `ExactlyOneActive` gives the rest of its contract |
| `LoadingAnimations.ExactlyOneActive` | app/components/LoadingAnimations.tsx:140-145 | for an index in range exactly one of the three dots is highlighted, the one at that index |
| `LoadingAnimations.AnimationDelayMs` | app/components/LoadingAnimations.tsx:147 | no contract of its own: the delay of dot i is i * 200 ms; `DelaysStaggered` gives its contract |
| `LoadingAnimations.DelaysStaggered` | app/components/LoadingAnimations.tsx:147 | the first dot's pulse starts at 0 ms and each further dot's pulse 200 ms after the one before it |
| `LoadingAnimations.LoadingIndicator.constructor` | app/components/LoadingAnimations.tsx:129 | the active index starts at 0 |
| `LoadingAnimations.LoadingIndicator.Tick` | app/components/LoadingAnimations.tsx:132-134 | a firing applies the index step, and after n firings the index is n mod 3 |
| `LoadingAnimations.LoadingIndicator.Dots` | app/components/LoadingAnimations.tsx:139-151 | three dots are rendered, the active index is one of them, that dot is highlighted and no other is |
| `LoadingAnimations.NextRotation` | app/components/LoadingAnimations.tsx:21 | the step always gives 10 or -10, and it turns 10 into -10 and -10 into 10 |
| `LoadingAnimations.RotationAfterTicksParity` | app/components/LoadingAnimations.tsx:12-22 | from 10, the angle is 10 after an even number of firings and -10 after an odd one |
| `LoadingAnimations.TwoTicksReturn` | app/components/LoadingAnimations.tsx:21 | two steps are the identity on {10, -10} |
| `LoadingAnimations.RotationScheduled` | app/components/LoadingAnimations.tsx:19 | no contract of its own: the predicate is the source's test for the recipe mode; `LoadingScreen.Tick` and `LoadingScreen.Valid` give its effect |
| `LoadingAnimations.Caption` | app/components/LoadingAnimations.tsx:27-69 | the caption is "Loading..." exactly when the mode is absent or not one of the four named modes |
| `LoadingAnimations.CaptionInjective` | app/components/LoadingAnimations.tsx:28-63 | each named mode has a caption no other mode shares |
| `LoadingAnimations.LoadingScreen.constructor` | app/components/LoadingAnimations.tsx:12 | the angle starts at 10 |
| `LoadingAnimations.LoadingScreen.Tick` | app/components/LoadingAnimations.tsx:19-24 | in recipe mode a firing flips the angle, which alternates 10, -10 with the firings; in every other mode no callback runs and the angle stays 10 |

## Left out

- JSX rendering, CSS classes, the heroicons, the SVG shaker icon and the emoji icons of `getContent` are not modelled. Only the captions are.
- `isShaking` of the loading screen is not modelled. It only picks CSS classes of the icons.
- Timers are not modelled. `setInterval` with its 600 ms and 800 ms periods, `clearInterval` on unmount and React's effect scheduling become `Tick` methods called once per firing.
- A change of the loading screen's `questionnaire` prop is not modelled. The prop is a constant of `LoadingScreen` for the object's lifetime, so restarting the effect never comes up.
- React state plumbing is not modelled. Each handler call yields the next state at once. Batched updates and stale closures under rapid clicks are left out.
- `onComplete` is not modelled as a callback. `PressSubmit` and `PressSurpriseMe` return the response map the form would pass to it.
- The knowledge form's `userLevel` prop is only rendered, in the level read-out at app/components/Questionnaires.tsx:203, so it is not modelled.
- The profile's `preferredFlavors` and `mixologyLevel` are declared in the prop type at app/components/Questionnaires.tsx:11-12 but never read. `UserProfile` carries them and no function uses them.
- The toggles and setters accept any string, as the handlers do. The invariants that a selection holds only button labels (`FromButtons`) and that a single choice is unset or a button label (`ChoiceFromButtons`, `ChoicesFromButtons`) are proved only for presses of buttons.
- `Selection.SplitJoin` needs comma-free labels and a non-empty selection. `Join` of an empty selection is "", which splits to the one label "". This is why `PairingsSubmitRecoversSelections` treats the empty case separately.
- `Questionnaires.ProfileReminderListsFirstThree` is proved only for spirit names without a comma. The profile comes from the caller, and nothing restricts its names. A comma inside a name makes the listed text impossible to cut back into names: the one spirit "Rum, aged" reads back as "Rum" and "aged". For such profiles the reminder is still `ReminderPrefix + Join(Take(spirits, 3), Sep)`, by the body of `ProfileReminder` and the contract of `Take`.
- Each form's `IsValid` is the conjunction itself, written in the predicate's body. Its contract is stated by the `...ValidIffAnswered` lemmas. `PersonalizedValidIffAnswered` and `KnowledgeValidIffAnswered` assume non-empty labels, which every button label is.
- `LoadingAnimations.AnimationDelayMs` gives the delay as a number of milliseconds, not as the CSS string with the `ms` suffix. It has no contract of its own. `DelaysStaggered` states that the pulses are staggered.
- app/page.tsx (marketing markup and a scroll listener), app/components/SplashScreens.tsx (timer-driven splash sequence) and tailwind.config.ts (theme data) are not part of this model.
