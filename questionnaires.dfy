/**
 * The three onboarding questionnaires. Each form keeps its multi-select
 * answers as selections (see module Selection) and its single-choice answers
 * as strings, where "" means that nothing is chosen. A toggle handler copies
 * the set, deletes or adds the label and stores the copy; a single-choice
 * button overwrites its string. Submitting flattens the answers into one
 * response map from field names to strings, the multi-selects joined by ", ".
 * The submit button is disabled while the form is not valid, so a press can
 * only happen on a valid form.
 */
module Questionnaires {
  import opened Optional
  import opened Selection

  /** The response map handed to the completion callback. */
  type Responses = map<string, string>

  /** The buttons each form renders; the toggles and setters are only ever called with these. */
  const SpiritOptions: seq<string> :=
    ["Vodka", "Gin", "Whiskey", "Rum", "Tequila", "Bourbon", "Scotch", "Brandy", "Mezcal"]
  const FlavorOptions: seq<string> :=
    ["Sweet", "Sour", "Bitter", "Spicy", "Fruity", "Herbal", "Smoky", "Creamy", "Refreshing"]
  const MoodOptions: seq<string> :=
    ["Relaxing evening", "Party time", "Date night", "After work", "Weekend brunch", "Celebration", "Nightcap"]
  const TopicOptions: seq<string> :=
    ["Cocktail History", "Classic Recipes", "Modern Techniques",
     "Spirits Knowledge", "Garnishing", "Glassware", "Bar Tools", "Mixology Theory"]
  const LevelOptions: seq<string> :=
    ["Complete beginner", "Some knowledge", "Intermediate", "Advanced", "Expert"]
  const FocusOptions: seq<string> :=
    ["Basic techniques", "Advanced methods", "Ingredient knowledge",
     "Presentation & garnishing", "Cocktail science", "Bar management"]
  const CuisineOptions: seq<string> :=
    ["Italian", "Asian", "Mexican", "French", "Mediterranean",
     "American", "Indian", "Japanese", "Thai", "Other"]
  const OccasionOptions: seq<string> :=
    ["Casual dinner", "Date night", "Family gathering", "Business dinner",
     "Celebration", "Holiday meal", "Outdoor BBQ", "Brunch"]
  const PreferenceOptions: seq<string> :=
    ["Light & refreshing", "Bold & strong", "Sweet cocktails", "Classic cocktails",
     "Wine-based", "Beer cocktails", "Low ABV", "Spirit-forward"]
  const RestrictionOptions: seq<string> :=
    ["Vegetarian", "Vegan", "Gluten-free", "Nut allergies", "Dairy-free", "Low sugar"]

  /** Every label of a selection is one of the given buttons. */
  ghost predicate DrawnFrom(s: seq<string>, options: seq<string>)
  {
    forall l :: l in s ==> l in options
  }

  /** A single choice is still unset or is one of the given buttons. */
  ghost predicate ChosenFrom(choice: string, options: seq<string>)
  {
    choice == "" || choice in options
  }

  /** A label that is non-empty and comma-free: a join of such labels can be split back. */
  predicate JoinableLabel(l: string)
  {
    CommaFree(l) && l != ""
  }

  /** Every label of the list is joinable. */
  ghost predicate Joinable(options: seq<string>)
  {
    forall l :: l in options ==> JoinableLabel(l)
  }

  /** A list is joinable when the label at each of its positions is. */
  lemma JoinableByIndex(options: seq<string>)
    requires forall i :: 0 <= i < |options| ==> JoinableLabel(options[i])
    ensures Joinable(options)
  {
    forall l | l in options ensures JoinableLabel(l) {
      var i :| 0 <= i < |options| && options[i] == l;
    }
  }

  /** No multi-select button label is empty or contains a comma. */
  lemma MultiSelectOptionsJoinable()
    ensures Joinable(SpiritOptions) && Joinable(FlavorOptions) && Joinable(TopicOptions)
    ensures Joinable(PreferenceOptions) && Joinable(RestrictionOptions)
  {
    SpiritOptionsJoinable();
    FlavorOptionsJoinable();
    TopicOptionsJoinable();
    PreferenceOptionsJoinable();
    RestrictionOptionsJoinable();
  }

  lemma SpiritOptionsJoinable()
    ensures Joinable(SpiritOptions)
  {
    assert JoinableLabel("Vodka");
    assert JoinableLabel("Gin");
    assert JoinableLabel("Whiskey");
    assert JoinableLabel("Rum");
    assert JoinableLabel("Tequila");
    assert JoinableLabel("Bourbon");
    assert JoinableLabel("Scotch");
    assert JoinableLabel("Brandy");
    assert JoinableLabel("Mezcal");
    JoinableByIndex(SpiritOptions);
  }

  lemma FlavorOptionsJoinable()
    ensures Joinable(FlavorOptions)
  {
    assert JoinableLabel("Sweet");
    assert JoinableLabel("Sour");
    assert JoinableLabel("Bitter");
    assert JoinableLabel("Spicy");
    assert JoinableLabel("Fruity");
    assert JoinableLabel("Herbal");
    assert JoinableLabel("Smoky");
    assert JoinableLabel("Creamy");
    assert JoinableLabel("Refreshing");
    JoinableByIndex(FlavorOptions);
  }

  lemma TopicOptionsJoinable()
    ensures Joinable(TopicOptions)
  {
    assert JoinableLabel("Cocktail History");
    assert JoinableLabel("Classic Recipes");
    assert JoinableLabel("Modern Techniques");
    assert JoinableLabel("Spirits Knowledge");
    assert JoinableLabel("Garnishing");
    assert JoinableLabel("Glassware");
    assert JoinableLabel("Bar Tools");
    assert JoinableLabel("Mixology Theory");
    JoinableByIndex(TopicOptions);
  }

  lemma PreferenceOptionsJoinable()
    ensures Joinable(PreferenceOptions)
  {
    assert JoinableLabel("Light & refreshing");
    assert JoinableLabel("Bold & strong");
    assert JoinableLabel("Sweet cocktails");
    assert JoinableLabel("Classic cocktails");
    assert JoinableLabel("Wine-based");
    assert JoinableLabel("Beer cocktails");
    assert JoinableLabel("Low ABV");
    assert JoinableLabel("Spirit-forward");
    JoinableByIndex(PreferenceOptions);
  }

  lemma RestrictionOptionsJoinable()
    ensures Joinable(RestrictionOptions)
  {
    assert JoinableLabel("Vegetarian");
    assert JoinableLabel("Vegan");
    assert JoinableLabel("Gluten-free");
    assert JoinableLabel("Nut allergies");
    assert JoinableLabel("Dairy-free");
    assert JoinableLabel("Low sugar");
    JoinableByIndex(RestrictionOptions);
  }

  /** The profile passed to the personalized form by its caller. */
  datatype UserProfile = UserProfile(
    preferredSpirits: seq<string>,
    preferredFlavors: seq<string>,
    mixologyLevel: int)

  /** The text in front of the spirits the profile reminder lists. */
  const ReminderPrefix: string := "Based on your profile, you enjoy "

  /**
   * The profile reminder of the personalized form: shown only for a profile whose
   * preferred-spirits set is non-empty, and then naming its first three spirits.
   */
  function ProfileReminder(profile: Option<UserProfile>): (r: Option<string>)
    ensures r.Some? <==> profile.Some? && |profile.value.preferredSpirits| > 0
    ensures r.Some? ==> IsPrefix(ReminderPrefix, r.value)
  {
    if profile.Some? && |profile.value.preferredSpirits| > 0 then
      Some(ReminderPrefix + Join(Take(profile.value.preferredSpirits, 3), Sep))
    else
      None
  }

  /** The reminder lists at most three spirits: the first ones in insertion order. */
  lemma ProfileReminderListsFirstThree(profile: UserProfile)
    requires |profile.preferredSpirits| > 0
    requires forall l :: l in profile.preferredSpirits ==> CommaFree(l)
    ensures ProfileReminder(Some(profile)).Some?
    ensures var listed := Split(ProfileReminder(Some(profile)).value[|ReminderPrefix|..], Sep);
      && 1 <= |listed| <= 3
      && |listed| <= |profile.preferredSpirits|
      && listed == profile.preferredSpirits[..|listed|]
      && (|listed| == 3 || listed == profile.preferredSpirits)
  {
    var first := Take(profile.preferredSpirits, 3);
    var text := ReminderPrefix + Join(first, Sep);
    assert text[|ReminderPrefix|..] == Join(first, Sep);
    assert forall l :: l in first ==> l in profile.preferredSpirits;
    SplitJoin(first);
  }

  /** "Surprise Me": a response map with the one entry randomFact = "true". */
  const RandomFactResponses: Responses := map["randomFact" := "true"]

  class PersonalizedQuestionnaire {
    var selectedSpirits: seq<string>
    var selectedFlavors: seq<string>
    var selectedMood: string

    /** Both selections behave as sets. */
    ghost predicate Valid()
      reads this
    {
      NoDup(selectedSpirits) && NoDup(selectedFlavors)
    }

    /** Every selected label is one of the form's buttons. */
    ghost predicate FromButtons()
      reads this
    {
      DrawnFrom(selectedSpirits, SpiritOptions) && DrawnFrom(selectedFlavors, FlavorOptions)
    }

    /** The mood is unset or one of the form's mood buttons. */
    ghost predicate ChoiceFromButtons()
      reads this
    {
      ChosenFrom(selectedMood, MoodOptions)
    }

    constructor ()
      ensures Valid() && FromButtons() && ChoiceFromButtons()
      ensures selectedSpirits == [] && selectedFlavors == [] && selectedMood == ""
    {
      selectedSpirits, selectedFlavors, selectedMood := [], [], "";
    }

    method ToggleSpirit(spirit: string)
      requires Valid()
      modifies this
      ensures Valid()
      ensures selectedSpirits == Toggle(old(selectedSpirits), spirit)
      ensures selectedFlavors == old(selectedFlavors) && selectedMood == old(selectedMood)
      ensures old(FromButtons()) && spirit in SpiritOptions ==> FromButtons()
    {
      var newSpirits := selectedSpirits;
      if spirit in newSpirits {
        newSpirits := Delete(newSpirits, spirit);
      } else {
        newSpirits := Add(newSpirits, spirit);
      }
      selectedSpirits := newSpirits;
    }

    method ToggleFlavor(flavor: string)
      requires Valid()
      modifies this
      ensures Valid()
      ensures selectedFlavors == Toggle(old(selectedFlavors), flavor)
      ensures selectedSpirits == old(selectedSpirits) && selectedMood == old(selectedMood)
      ensures old(FromButtons()) && flavor in FlavorOptions ==> FromButtons()
    {
      var newFlavors := selectedFlavors;
      if flavor in newFlavors {
        newFlavors := Delete(newFlavors, flavor);
      } else {
        newFlavors := Add(newFlavors, flavor);
      }
      selectedFlavors := newFlavors;
    }

    method SelectMood(mood: string)
      modifies this
      ensures selectedMood == mood
      ensures selectedSpirits == old(selectedSpirits) && selectedFlavors == old(selectedFlavors)
      ensures mood in MoodOptions ==> ChoiceFromButtons()
    {
      selectedMood := mood;
    }

    /** The submit button is enabled: a spirit, a flavor and a mood are chosen. */
    predicate IsValid()
      reads this
    {
      |selectedSpirits| > 0 && |selectedFlavors| > 0 && selectedMood != ""
    }

    /** The response map the form builds on submit, whether or not it is valid. */
    function Submit(): (r: Responses)
      reads this
      ensures r.Keys == {"spirits", "flavors", "mood"}
      ensures r["mood"] == selectedMood
    {
      map["spirits" := Join(selectedSpirits, Sep),
          "flavors" := Join(selectedFlavors, Sep),
          "mood" := selectedMood]
    }

    /** Pressing the enabled submit button hands the response map to the caller. */
    method PressSubmit() returns (responses: Responses)
      requires IsValid()
      ensures responses == Submit()
    {
      responses := Submit();
    }
  }

  /** The personalized form is valid exactly when none of its three answers is empty. */
  lemma PersonalizedValidIffAnswered(q: PersonalizedQuestionnaire)
    requires forall l :: l in q.selectedSpirits ==> l != ""
    requires forall l :: l in q.selectedFlavors ==> l != ""
    ensures q.IsValid() <==>
      q.Submit()["spirits"] != "" && q.Submit()["flavors"] != "" && q.Submit()["mood"] != ""
  {
    JoinEmptyIff(q.selectedSpirits, Sep);
    JoinEmptyIff(q.selectedFlavors, Sep);
    assert |q.selectedSpirits| > 0 ==> q.selectedSpirits[0] in q.selectedSpirits;
    assert |q.selectedFlavors| > 0 ==> q.selectedFlavors[0] in q.selectedFlavors;
  }

  /** A submitted personalized form gives back its selections, in the order they were toggled on. */
  lemma PersonalizedSubmitRecoversSelections(q: PersonalizedQuestionnaire)
    requires q.FromButtons() && q.IsValid()
    ensures Split(q.Submit()["spirits"], Sep) == q.selectedSpirits
    ensures Split(q.Submit()["flavors"], Sep) == q.selectedFlavors
  {
    MultiSelectOptionsJoinable();
    SplitJoin(q.selectedSpirits);
    SplitJoin(q.selectedFlavors);
  }

  class KnowledgeQuestionnaire {
    var selectedTopics: seq<string>
    var selectedLevel: string
    var selectedFocus: string

    /** The topic selection behaves as a set. */
    ghost predicate Valid()
      reads this
    {
      NoDup(selectedTopics)
    }

    /** Every selected topic is one of the form's buttons. */
    ghost predicate FromButtons()
      reads this
    {
      DrawnFrom(selectedTopics, TopicOptions)
    }

    /** The level and the focus are unset or among the form's buttons for them. */
    ghost predicate ChoicesFromButtons()
      reads this
    {
      ChosenFrom(selectedLevel, LevelOptions) && ChosenFrom(selectedFocus, FocusOptions)
    }

    constructor ()
      ensures Valid() && FromButtons() && ChoicesFromButtons()
      ensures selectedTopics == [] && selectedLevel == "" && selectedFocus == ""
    {
      selectedTopics, selectedLevel, selectedFocus := [], "", "";
    }

    method ToggleTopic(topic: string)
      requires Valid()
      modifies this
      ensures Valid()
      ensures selectedTopics == Toggle(old(selectedTopics), topic)
      ensures selectedLevel == old(selectedLevel) && selectedFocus == old(selectedFocus)
      ensures old(FromButtons()) && topic in TopicOptions ==> FromButtons()
    {
      var newTopics := selectedTopics;
      if topic in newTopics {
        newTopics := Delete(newTopics, topic);
      } else {
        newTopics := Add(newTopics, topic);
      }
      selectedTopics := newTopics;
    }

    method SelectLevel(level: string)
      modifies this
      ensures selectedLevel == level
      ensures selectedTopics == old(selectedTopics) && selectedFocus == old(selectedFocus)
      ensures old(ChoicesFromButtons()) && level in LevelOptions ==> ChoicesFromButtons()
    {
      selectedLevel := level;
    }

    method SelectFocus(focus: string)
      modifies this
      ensures selectedFocus == focus
      ensures selectedTopics == old(selectedTopics) && selectedLevel == old(selectedLevel)
      ensures old(ChoicesFromButtons()) && focus in FocusOptions ==> ChoicesFromButtons()
    {
      selectedFocus := focus;
    }

    /** The submit button is enabled: a topic, a level and a focus are chosen. */
    predicate IsValid()
      reads this
    {
      |selectedTopics| > 0 && selectedLevel != "" && selectedFocus != ""
    }

    /** The response map the form builds on submit, whether or not it is valid. */
    function Submit(): (r: Responses)
      reads this
      ensures r.Keys == {"topics", "level", "focus"}
      ensures r["level"] == selectedLevel && r["focus"] == selectedFocus
    {
      map["topics" := Join(selectedTopics, Sep),
          "level" := selectedLevel,
          "focus" := selectedFocus]
    }

    /** Pressing the enabled submit button hands the response map to the caller. */
    method PressSubmit() returns (responses: Responses)
      requires IsValid()
      ensures responses == Submit()
    {
      responses := Submit();
    }

    /** "Surprise Me" is always enabled and ignores every answer chosen so far. */
    method PressSurpriseMe() returns (responses: Responses)
      ensures responses.Keys == {"randomFact"} && responses["randomFact"] == "true"
    {
      responses := RandomFactResponses;
    }
  }

  /** The knowledge form is valid exactly when none of its three answers is empty. */
  lemma KnowledgeValidIffAnswered(q: KnowledgeQuestionnaire)
    requires forall l :: l in q.selectedTopics ==> l != ""
    ensures q.IsValid() <==>
      q.Submit()["topics"] != "" && q.Submit()["level"] != "" && q.Submit()["focus"] != ""
  {
    JoinEmptyIff(q.selectedTopics, Sep);
    assert |q.selectedTopics| > 0 ==> q.selectedTopics[0] in q.selectedTopics;
  }

  /** A submitted knowledge form gives back its topics, in the order they were toggled on. */
  lemma KnowledgeSubmitRecoversTopics(q: KnowledgeQuestionnaire)
    requires q.FromButtons() && q.IsValid()
    ensures Split(q.Submit()["topics"], Sep) == q.selectedTopics
  {
    MultiSelectOptionsJoinable();
    SplitJoin(q.selectedTopics);
  }

  class PairingsQuestionnaire {
    var foodText: string
    var selectedCuisine: string
    var selectedOccasion: string
    var selectedPreferences: seq<string>
    var dietaryRestrictions: seq<string>

    /** Both selections behave as sets. */
    ghost predicate Valid()
      reads this
    {
      NoDup(selectedPreferences) && NoDup(dietaryRestrictions)
    }

    /** Every selected label is one of the form's buttons. */
    ghost predicate FromButtons()
      reads this
    {
      DrawnFrom(selectedPreferences, PreferenceOptions) && DrawnFrom(dietaryRestrictions, RestrictionOptions)
    }

    /** The cuisine and the occasion are unset or among the form's buttons for them. */
    ghost predicate ChoicesFromButtons()
      reads this
    {
      ChosenFrom(selectedCuisine, CuisineOptions) && ChosenFrom(selectedOccasion, OccasionOptions)
    }

    constructor ()
      ensures Valid() && FromButtons() && ChoicesFromButtons()
      ensures foodText == "" && selectedCuisine == "" && selectedOccasion == ""
      ensures selectedPreferences == [] && dietaryRestrictions == []
    {
      foodText, selectedCuisine, selectedOccasion := "", "", "";
      selectedPreferences, dietaryRestrictions := [], [];
    }

    method TogglePreference(pref: string)
      requires Valid()
      modifies this
      ensures Valid()
      ensures selectedPreferences == Toggle(old(selectedPreferences), pref)
      ensures dietaryRestrictions == old(dietaryRestrictions)
      ensures foodText == old(foodText) && selectedCuisine == old(selectedCuisine)
      ensures selectedOccasion == old(selectedOccasion)
      ensures old(FromButtons()) && pref in PreferenceOptions ==> FromButtons()
    {
      var newPrefs := selectedPreferences;
      if pref in newPrefs {
        newPrefs := Delete(newPrefs, pref);
      } else {
        newPrefs := Add(newPrefs, pref);
      }
      selectedPreferences := newPrefs;
    }

    method ToggleRestriction(restriction: string)
      requires Valid()
      modifies this
      ensures Valid()
      ensures dietaryRestrictions == Toggle(old(dietaryRestrictions), restriction)
      ensures selectedPreferences == old(selectedPreferences)
      ensures foodText == old(foodText) && selectedCuisine == old(selectedCuisine)
      ensures selectedOccasion == old(selectedOccasion)
      ensures old(FromButtons()) && restriction in RestrictionOptions ==> FromButtons()
    {
      var newRestrictions := dietaryRestrictions;
      if restriction in newRestrictions {
        newRestrictions := Delete(newRestrictions, restriction);
      } else {
        newRestrictions := Add(newRestrictions, restriction);
      }
      dietaryRestrictions := newRestrictions;
    }

    /** The text input's change handler stores the typed text as it is. */
    method SetFoodText(text: string)
      modifies this
      ensures foodText == text
      ensures selectedCuisine == old(selectedCuisine) && selectedOccasion == old(selectedOccasion)
      ensures selectedPreferences == old(selectedPreferences)
      ensures dietaryRestrictions == old(dietaryRestrictions)
    {
      foodText := text;
    }

    method SelectCuisine(cuisine: string)
      modifies this
      ensures selectedCuisine == cuisine
      ensures foodText == old(foodText) && selectedOccasion == old(selectedOccasion)
      ensures selectedPreferences == old(selectedPreferences)
      ensures dietaryRestrictions == old(dietaryRestrictions)
      ensures old(ChoicesFromButtons()) && cuisine in CuisineOptions ==> ChoicesFromButtons()
    {
      selectedCuisine := cuisine;
    }

    method SelectOccasion(occasion: string)
      modifies this
      ensures selectedOccasion == occasion
      ensures foodText == old(foodText) && selectedCuisine == old(selectedCuisine)
      ensures selectedPreferences == old(selectedPreferences)
      ensures dietaryRestrictions == old(dietaryRestrictions)
      ensures old(ChoicesFromButtons()) && occasion in OccasionOptions ==> ChoicesFromButtons()
    {
      selectedOccasion := occasion;
    }

    /** The submit button is enabled: food text, a cuisine and an occasion are given. */
    predicate IsValid()
      reads this
    {
      foodText != "" && selectedCuisine != "" && selectedOccasion != ""
    }

    /** The response map the form builds on submit, whether or not it is valid. */
    function Submit(): (r: Responses)
      reads this
      ensures r.Keys == {"food", "cuisine", "occasion", "preferences", "restrictions"}
      ensures r["food"] == foodText && r["cuisine"] == selectedCuisine
      ensures r["occasion"] == selectedOccasion
    {
      map["food" := foodText,
          "cuisine" := selectedCuisine,
          "occasion" := selectedOccasion,
          "preferences" := Join(selectedPreferences, Sep),
          "restrictions" := Join(dietaryRestrictions, Sep)]
    }

    /** Pressing the enabled submit button hands the response map to the caller. */
    method PressSubmit() returns (responses: Responses)
      requires IsValid()
      ensures responses == Submit()
    {
      responses := Submit();
    }
  }

  /**
   * The pairings form is valid exactly when its three required answers are non-empty;
   * the two optional selections play no part, and text of blanks counts as given.
   */
  lemma PairingsValidIffAnswered(q: PairingsQuestionnaire)
    ensures q.IsValid() <==>
      q.Submit()["food"] != "" && q.Submit()["cuisine"] != "" && q.Submit()["occasion"] != ""
    ensures q.selectedCuisine != "" && q.selectedOccasion != "" && q.foodText == " " ==> q.IsValid()
  {
  }

  /** A submitted pairings form gives back its non-empty selections, in the order they were toggled on. */
  lemma PairingsSubmitRecoversSelections(q: PairingsQuestionnaire)
    requires q.FromButtons()
    ensures |q.selectedPreferences| > 0 ==>
      Split(q.Submit()["preferences"], Sep) == q.selectedPreferences
    ensures |q.dietaryRestrictions| > 0 ==>
      Split(q.Submit()["restrictions"], Sep) == q.dietaryRestrictions
    ensures q.selectedPreferences == [] <==> q.Submit()["preferences"] == ""
    ensures q.dietaryRestrictions == [] <==> q.Submit()["restrictions"] == ""
  {
    MultiSelectOptionsJoinable();
    JoinEmptyIff(q.selectedPreferences, Sep);
    JoinEmptyIff(q.dietaryRestrictions, Sep);
    if |q.selectedPreferences| > 0 {
      SplitJoin(q.selectedPreferences);
      assert q.selectedPreferences[0] in q.selectedPreferences;
    }
    if |q.dietaryRestrictions| > 0 {
      SplitJoin(q.dietaryRestrictions);
      assert q.dietaryRestrictions[0] in q.dietaryRestrictions;
    }
  }

  /** The selections of the session below, and their joins. */
  lemma SessionSelections()
    ensures Toggle(Toggle(Toggle(Toggle([], "Gin"), "Rum"), "Gin"), "Gin") == ["Rum", "Gin"]
    ensures Toggle([], "Sour") == ["Sour"]
    ensures Join(["Rum", "Gin"], Sep) == "Rum, Gin" && Join(["Sour"], Sep) == "Sour"
  {
    ToggleAbsent([], "Gin");
    ToggleAbsent(["Gin"], "Rum");
    assert ["Gin"] + ["Rum"] == ["Gin", "Rum"];
    ToggleTwicePresent(["Gin", "Rum"], 0);
    ToggleAbsent([], "Sour");
  }

  /**
   * A session on the personalized form: Gin and Rum are chosen, Gin is toggled
   * off and on again, which moves it behind Rum, then a flavor and a mood are
   * chosen and the form is submitted.
   */
  method PersonalizedSession() returns (responses: Responses)
    ensures responses == map["spirits" := "Rum, Gin", "flavors" := "Sour", "mood" := "Date night"]
  {
    var form := new PersonalizedQuestionnaire();
    form.ToggleSpirit("Gin");
    form.ToggleSpirit("Rum");
    form.ToggleSpirit("Gin");
    form.ToggleSpirit("Gin");
    form.ToggleFlavor("Sour");
    form.SelectMood("Date night");
    SessionSelections();
    responses := form.PressSubmit();
  }
}
