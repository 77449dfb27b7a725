/** `AppComponent`: the five screens, the wizard's draft and the plan being
    shown. The template's handlers (back and cancel buttons, form bindings) are
    methods here like the component's own. */
module App {
  import opened Wrappers
  import opened Text
  import opened PlanModel
  import opened Storage
  import opened Gateway

  datatype View = HOME | WIZARD | ASSESSMENT | GENERATING | DASHBOARD

  /** What the home page emits when a suggestion is picked: a string, an object
      with a `detail` field, or anything else. */
  datatype Selection = Plain(value: string) | Wrapped(detail: Option<string>) | Other

  const EmptyDraft: Draft := Draft("", "", "Standard")

  const SuggestionContext: string := "Interested from suggestions"

  /** The skill a selection seeds the wizard with: any string, or a `detail` that
      is truthy (present and non-empty); nothing otherwise. */
  function SeededSkill(s: Selection): (r: Option<string>)
    ensures r.Some? <==> s.Plain? || (s.Wrapped? && Truthy(s.detail))
    ensures s.Plain? ==> r == Some(s.value)
    ensures s.Wrapped? && Truthy(s.detail) ==> r == s.detail
  {
    match s
    case Plain(v) => Some(v)
    case Wrapped(d) => if Truthy(d) then d else None
    case Other => None
  }

  /** The wizard's Next button is enabled when the skill is not the empty string. */
  predicate NextEnabled(d: Draft)
  {
    d.skill != ""
  }

  /** The Next button lets a skill made only of spaces through. */
  lemma NextAcceptsBlankSkill(context: string, framework: string)
    ensures NextEnabled(Draft(" ", context, framework)) && IsBlank(" ")
  {
    assert TrimStart(" ") == TrimStart(" "[1..]);
    assert " "[1..] == "";
  }

  class App {
    const store: PlanStore
    var view: View
    var activePlan: Plan?
    var draft: Draft

    /** The dashboard screen always has a plan to show. */
    predicate Valid()
      reads this
    {
      view == DASHBOARD ==> activePlan != null
    }

    constructor (store: PlanStore)
      ensures this.store == store && Valid()
      ensures view == HOME && activePlan == null && draft == EmptyDraft
    {
      this.store := store;
      view, activePlan, draft := HOME, null, EmptyDraft;
    }

    /** `openPlan(p)`: show a plan from the list. */
    method OpenPlan(p: Plan)
      modifies this`activePlan, this`view
      ensures activePlan == p && view == DASHBOARD && Valid()
    {
      activePlan := p;
      view := DASHBOARD;
    }

    /** `startWizard`: a fresh draft, then the wizard. */
    method StartWizard()
      requires Valid()
      modifies this`draft, this`view
      ensures draft == EmptyDraft && view == WIZARD && Valid()
    {
      draft := EmptyDraft;
      view := WIZARD;
    }

    /** `suggestionSelected(s)`: a usable selection seeds a new draft and opens the
        wizard; anything else changes nothing. */
    method SuggestionSelected(s: Selection)
      requires Valid()
      modifies this`draft, this`view
      ensures Valid()
      ensures SeededSkill(s).Some? ==>
        draft == Draft(SeededSkill(s).value, SuggestionContext, "Standard") && view == WIZARD
      ensures SeededSkill(s).None? ==> draft == old(draft) && view == old(view)
    {
      match s
      case Plain(v) =>
        draft := Draft(v, SuggestionContext, "Standard");
        view := WIZARD;
      case Wrapped(d) =>
        if Truthy(d) {
          draft := Draft(d.value, SuggestionContext, "Standard");
          view := WIZARD;
        }
      case Other =>
    }

    /** The skill field of the wizard. */
    method EditSkill(skill: string)
      modifies this`draft
      ensures draft == old(draft).(skill := skill)
    {
      draft := draft.(skill := skill);
    }

    /** The goal field of the wizard. */
    method EditContext(context: string)
      modifies this`draft
      ensures draft == old(draft).(context := context)
    {
      draft := draft.(context := context);
    }

    /** The two framework buttons, "Standard" and "DiSSS". */
    method ChooseFramework(framework: string)
      modifies this`draft
      ensures draft == old(draft).(framework := framework)
    {
      draft := draft.(framework := framework);
    }

    /** `goToAssessment`: no check of its own. */
    method GoToAssessment()
      requires Valid()
      modifies this`view
      ensures view == ASSESSMENT && Valid()
    {
      view := ASSESSMENT;
    }

    /** A click on the wizard's Next button, which is disabled for an empty skill. */
    method PressNext()
      requires Valid()
      modifies this`view
      ensures Valid()
      ensures view == (if NextEnabled(draft) then ASSESSMENT else old(view))
    {
      if NextEnabled(draft) {
        GoToAssessment();
      }
    }

    /** The wizard's back button, the assessment's cancel and the dashboard's back
        button: all go home, keeping the draft and the plan last shown. */
    method GoHome()
      requires Valid()
      modifies this`view
      ensures view == HOME && Valid()
    {
      view := HOME;
    }

    /** `generatePlan(summary)` up to the call: the generating screen, and the
        prompt sent for the draft. */
    method BeginGeneratePlan(summary: string) returns (prompt: string)
      requires Valid()
      modifies this`view
      ensures view == GENERATING && Valid()
      ensures prompt == PlanPrompt(draft.skill, draft.context, draft.framework, summary)
    {
      view := GENERATING;
      prompt := PlanPrompt(draft.skill, draft.context, draft.framework, summary);
    }

    /** `generatePlan` after the call. On success a new plan (the given id and
        timestamp, the draft, the modules, progress 0, an empty journal) is saved and
        shown; on failure an alert is shown and the app goes home with the store as
        it was. */
    method FinishGeneratePlan(reply: JsonReply<Module>, id: string, now: int) returns (created: Plan?)
      requires Valid()
      modifies this`view, this`activePlan, store`plans, store`persisted
      ensures Valid()
      ensures GeneratePlan(reply).Err? ==>
        && created == null && view == HOME && activePlan == old(activePlan)
        && store.plans == old(store.plans) && store.persisted == old(store.persisted)
      ensures GeneratePlan(reply).Ok? ==>
        && created != null && fresh(created)
        && created.Record() == PlanRecord(id, draft.skill, draft, GeneratePlan(reply).value, 0, Some([]), now)
        && store.plans == Upsert(old(store.plans), created)
        && store.persisted == Snapshot(store.plans)
        && activePlan == created && view == DASHBOARD
    {
      var r := GeneratePlan(reply);
      if r.Err? {
        view := HOME;
        return null;
      }
      created := new Plan(id, draft.skill, draft, r.value, 0, Some([]), now);
      activePlan := created;
      view := DASHBOARD;
      assert created.Record() == PlanRecord(id, draft.skill, draft, r.value, 0, Some([]), now);
      store.SavePlan(created);
    }
  }
}
