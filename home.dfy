/** `HomeComponent`: the plan list with its delete button, the suggested skills
    and the "Systems Coach" chat. A browser `confirm` is a boolean parameter. */
module Home {
  import opened Wrappers
  import opened Text
  import opened PlanModel
  import opened Storage
  import opened Conversation
  import opened Gateway

  const CoachGreeting: string :=
    "Hello! I am your Atomic Habits coach. I can help you build systems to stick to your learning goals. How is your schedule looking?"

  const CoachInstruction: string :=
    "You are an Atomic Habits expert coach. Keep answers short, encouraging, and focused on systems, not goals."

  const CoachFallback: string := "I need a moment to think. Try again?"

  const InitialSuggestions: seq<string> := ["Public Speaking", "Watercolor", "Python", "Chess", "Yoga", "Speed Reading"]

  const Loading: seq<string> := ["Loading..."]

  /** `plans.map(p => p.skill)`. */
  function Skills(plans: seq<Plan>): (r: seq<string>)
    ensures |r| == |plans|
    ensures forall i :: 0 <= i < |plans| ==> r[i] == plans[i].skill
  {
    if plans == [] then [] else [plans[0].skill] + Skills(plans[1..])
  }

  /** The learning history sent for suggestions: the skills of the plans in list
      order, separated by ", ". */
  function History(plans: seq<Plan>): string
  {
    Join(Skills(plans), ", ")
  }

  /** The history is empty exactly when there is no plan, or a single plan whose
      skill is empty. */
  lemma HistoryEmptyIff(plans: seq<Plan>)
    ensures History(plans) == "" <==> |plans| == 0 || (|plans| == 1 && plans[0].skill == "")
  {
    JoinEmptyIff(Skills(plans), ", ");
  }

  /** With one plan the history is that plan's skill; each further plan adds ", "
      and its own skill, in list order. */
  lemma {:induction false} HistoryCons(p: Plan, plans: seq<Plan>)
    ensures History([p]) == p.skill
    ensures plans != [] ==> History([p] + plans) == p.skill + ", " + History(plans)
  {
    assert Skills([p]) == [p.skill];
    if plans != [] {
      var s := Skills([p] + plans);
      assert s[1..] == Skills(plans);
    }
  }

  class HomeView {
    const store: PlanStore
    var showCoach: bool
    var coachMessages: seq<Message>
    var suggestions: seq<string>

    constructor (store: PlanStore)
      ensures this.store == store
      ensures !showCoach && coachMessages == [Said(Model, CoachGreeting)] && suggestions == InitialSuggestions
    {
      this.store := store;
      showCoach := false;
      coachMessages := [Said(Model, CoachGreeting)];
      suggestions := InitialSuggestions;
    }

    /** `askCoach(text)` up to its await: blank text is ignored; otherwise the
        question is shown at once and sent in a new coaching chat. */
    method SendCoachQuestion(text: string) returns (request: Option<ChatRequest>)
      modifies this`coachMessages
      ensures IsBlank(text) ==> request == None && coachMessages == old(coachMessages)
      ensures !IsBlank(text) ==>
        request == Some(ChatRequest(CoachInstruction, text)) && coachMessages == old(coachMessages) + [Said(User, text)]
    {
      if IsBlank(text) {
        return None;
      }
      coachMessages := coachMessages + [Said(User, text)];
      request := Some(ChatRequest(CoachInstruction, text));
    }

    /** `askCoach` after its await: the answer, or the fallback when the call
        failed, goes after whatever the chat holds by then, so a second question
        asked before the first answer arrives sits between them. */
    method ReceiveCoachReply(reply: TextReply)
      modifies this`coachMessages
      ensures reply.Answered? ==> coachMessages == old(coachMessages) + [Said(Model, reply.text)]
      ensures reply.Unanswered? ==> coachMessages == old(coachMessages) + [Said(Model, CoachFallback)]
    {
      if reply.Answered? {
        coachMessages := coachMessages + [Said(Model, reply.text)];
      } else {
        coachMessages := coachMessages + [Said(Model, CoachFallback)];
      }
    }

    /** `toggleCoach`: open or close the chat panel. */
    method ToggleCoach()
      modifies this`showCoach
      ensures showCoach == !old(showCoach)
    {
      showCoach := !showCoach;
    }

    /** `deletePlan(id)`: the plan goes only when the user confirms. */
    method DeletePlan(id: string, confirmed: bool)
      modifies store`plans, store`persisted
      ensures confirmed ==> store.plans == RemoveId(old(store.plans), id) && store.persisted == Snapshot(store.plans)
      ensures !confirmed ==> store.plans == old(store.plans) && store.persisted == old(store.persisted)
    {
      if confirmed {
        store.DeletePlan(id);
      }
    }

    /** `refreshSuggestions` up to the call: the list shows the placeholder; the
        history sent is the skills of the stored plans. */
    method RefreshSuggestions() returns (history: string)
      modifies this`suggestions
      ensures suggestions == Loading
      ensures history == History(store.plans)
    {
      suggestions := Loading;
      history := History(store.plans);
    }

    /** `refreshSuggestions` after the call, which cannot fail. */
    method ReceiveSuggestions(reply: JsonReply<string>)
      modifies this`suggestions
      ensures suggestions == GenerateSuggestions(reply)
    {
      suggestions := GenerateSuggestions(reply);
    }
  }
}
